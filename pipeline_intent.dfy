/** The pipeline's intent detector (pipeline/intent.py): keyword scoring over
    `INTENT_PATTERNS` with the first maximum winning, the canned
    descriptions, the parser for the line-oriented reply of the classifier
    LLM, and `detect` with its keyword, LLM and default paths. The LLM is
    the chat wrapper of the `Qwen` module with its generation as an oracle. */
module PipelineIntent {
  import opened Outcomes
  import opened Text
  import Qwen

  /** `IntentType`. */
  datatype IntentType = Greeting | Question | Command | Information | Task | Weather | Time
                      | Reminder | Calculation | Translation | General | Unknown

  /** The enum member's value. */
  function Value(t: IntentType): string {
    match t
    case Greeting => "greeting"
    case Question => "question"
    case Command => "command"
    case Information => "information"
    case Task => "task"
    case Weather => "weather"
    case Time => "time"
    case Reminder => "reminder"
    case Calculation => "calculation"
    case Translation => "translation"
    case General => "general"
    case Unknown => "unknown"
  }

  /** `IntentType(s)`: the member whose value is `s`, or None where Python
      raises ValueError. */
  function FromValue(s: string): (r: Option<IntentType>)
    ensures r.Some? ==> Value(r.value) == s
    ensures r.None? ==> forall t :: Value(t) != s
  {
    if s == "greeting" then Some(Greeting)
    else if s == "question" then Some(Question)
    else if s == "command" then Some(Command)
    else if s == "information" then Some(Information)
    else if s == "task" then Some(Task)
    else if s == "weather" then Some(Weather)
    else if s == "time" then Some(Time)
    else if s == "reminder" then Some(Reminder)
    else if s == "calculation" then Some(Calculation)
    else if s == "translation" then Some(Translation)
    else if s == "general" then Some(General)
    else if s == "unknown" then Some(Unknown)
    else None
  }

  /** Every member is found again from its value. */
  lemma FromValueOfValue(t: IntentType)
    ensures FromValue(Value(t)) == Some(t)
  {
  }

  /** The `Intent` dataclass. */
  datatype Intent = Intent(kind: IntentType, confidence: real, entities: map<string, string>,
                           originalText: string, englishText: string, description: string)

  /** The keys of `INTENT_PATTERNS`, in declaration order. */
  const PatternKinds: seq<IntentType> := [Greeting, Weather, Time, Reminder, Calculation, Question, Command]

  /** The keyword list of each key of `INTENT_PATTERNS`, in the same order. */
  const PatternKeywords: seq<seq<string>> := [
    ["hello", "hi", "hey", "good morning", "good evening", "namaste", "how are you", "what's up"],
    ["weather", "temperature", "rain", "sunny", "cloudy", "forecast", "climate", "hot", "cold"],
    ["time", "what time", "clock", "hour", "date", "today", "day", "month", "year"],
    ["remind", "reminder", "alarm", "schedule", "appointment", "notify", "alert", "set reminder"],
    ["calculate", "math", "plus", "minus", "multiply", "divide", "sum", "total", "percentage", "how much is"],
    ["what", "who", "where", "when", "why", "how", "which", "is it", "are you", "can you", "could you", "tell me"],
    ["turn on", "turn off", "switch", "open", "close", "start", "stop", "play", "pause", "set"]
  ]

  /** The system prompt `_get_llm` gives the classifier LLM. */
  const ClassifierPrompt: string :=
    "You are an intent classifier. Given a user message, identify:\n"
    + "1. The primary intent (greeting, question, command, weather, time, reminder, calculation, information, task, general)\n"
    + "2. Key entities mentioned (names, numbers, locations, times)\n"
    + "3. A brief description of what the user wants\n\n"
    + "Respond in this exact format:\n"
    + "INTENT: <intent_type>\n"
    + "ENTITIES: <key: value pairs or \"none\">\n"
    + "DESCRIPTION: <brief description>"

  /** The message `_llm_detect` sends to the classifier. */
  function ClassifyRequest(englishText: string): string {
    "Classify this user message: \"" + englishText + "\""
  }

  // ------------------------------------------------------------ keyword scores

  /** Each pattern category with its score on `text`, in pattern order. */
  function ScoreTable(text: string): (t: seq<(IntentType, nat)>)
    ensures |t| == |PatternKinds|
    ensures forall i :: 0 <= i < |t| ==> t[i] == (PatternKinds[i], CountOccurring(PatternKeywords[i], text))
  {
    assert |PatternKeywords| == |PatternKinds|;
    seq(|PatternKinds|, i requires 0 <= i < |PatternKinds| => (PatternKinds[i], CountOccurring(PatternKeywords[i], text)))
  }

  /** The entries with a positive score, in order (the `scores` dict). */
  function Positive(s: seq<(IntentType, nat)>): (r: seq<(IntentType, nat)>)
    decreases |s|
  {
    if s == [] then []
    else Positive(s[..|s| - 1]) + (if s[|s| - 1].1 > 0 then [s[|s| - 1]] else [])
  }

  /** `max(scores, key=scores.get)`: scanning in order, an entry replaces the
      current best only when its score is strictly greater. */
  function FirstMax(s: seq<(IntentType, nat)>): (IntentType, nat)
    requires s != []
    decreases |s|
  {
    if |s| == 1 then s[0]
    else
      var best := FirstMax(s[..|s| - 1]);
      if s[|s| - 1].1 > best.1 then s[|s| - 1] else best
  }

  /** Entry `i` wins: it has a positive score, no entry scores more, and every
      earlier entry scores strictly less. */
  ghost predicate Leads(s: seq<(IntentType, nat)>, i: int) {
    0 <= i < |s| && s[i].1 > 0
    && (forall j :: 0 <= j < |s| ==> s[j].1 <= s[i].1)
    && (forall j :: 0 <= j < i ==> s[j].1 < s[i].1)
  }

  /** Appending an entry to a table keeps its earlier leader or makes the new entry lead. */
  lemma LeadsSnoc(front: seq<(IntentType, nat)>, last: (IntentType, nat), i: int)
    requires Leads(front, i)
    ensures last.1 > front[i].1 ==> Leads(front + [last], |front|)
    ensures last.1 <= front[i].1 ==> Leads(front + [last], i)
  {
    var s := front + [last];
    assert forall j :: 0 <= j < |front| ==> s[j] == front[j];
  }

  /** `max` over one more entry: the new entry wins only when strictly greater. */
  lemma FirstMaxSnoc(p: seq<(IntentType, nat)>, x: (IntentType, nat))
    requires p != []
    ensures FirstMax(p + [x]) == if x.1 > FirstMax(p).1 then x else FirstMax(p)
  {
    assert (p + [x])[..|p|] == p;
  }

  /** The first maximum of the positive entries leads the whole table, and
      there is none exactly when every score is zero. */
  lemma {:induction false} PositiveFirstMax(s: seq<(IntentType, nat)>)
    ensures Positive(s) == [] <==> forall j :: 0 <= j < |s| ==> s[j].1 == 0
    ensures Positive(s) != [] ==> exists i :: Leads(s, i) && s[i] == FirstMax(Positive(s))
    decreases |s|
  {
    if s != [] {
      var front := s[..|s| - 1];
      var last := s[|s| - 1];
      assert s == front + [last];
      PositiveFirstMax(front);
      var p := Positive(front);
      if p == [] {
        assert forall j :: 0 <= j < |front| ==> s[j] == front[j];
        if last.1 > 0 {
          assert Positive(s) == [last];
          assert Leads(s, |front|);
        }
      } else {
        var i0 :| Leads(front, i0) && front[i0] == FirstMax(p);
        var m := FirstMax(p);
        LeadsSnoc(front, last, i0);
        var ps := Positive(s);
        if last.1 > 0 {
          assert ps == p + [last];
          FirstMaxSnoc(p, last);
          if last.1 > m.1 {
            assert FirstMax(ps) == s[|front|];
          } else {
            assert FirstMax(ps) == s[i0];
          }
        } else {
          assert ps == p;
          assert FirstMax(ps) == s[i0];
        }
      }
    }
  }

  /** The category `_keyword_detect` picks from a score table: None when no
      entry is positive, else the first maximum of the positive ones. */
  function Winner(table: seq<(IntentType, nat)>): Option<IntentType> {
    var scores := Positive(table);
    if scores == [] then None else Some(FirstMax(scores).0)
  }

  /** There is no winner exactly when every score is zero; otherwise the
      winner leads the table: highest score, earliest among those tied. */
  lemma WinnerSpec(table: seq<(IntentType, nat)>)
    ensures Winner(table).None? <==> forall i :: 0 <= i < |table| ==> table[i].1 == 0
    ensures Winner(table).Some? ==> exists i :: Leads(table, i) && table[i].0 == Winner(table).value
  {
    PositiveFirstMax(table);
  }

  /** The winner is always one of the table's own categories. */
  lemma {:induction false} WinnerFromTable(table: seq<(IntentType, nat)>)
    ensures Winner(table).Some? ==> exists i :: 0 <= i < |table| && table[i].0 == Winner(table).value
  {
    WinnerSpec(table);
  }

  /** What `_keyword_detect(text)` returns. */
  function KeywordIntent(text: string): Option<IntentType> {
    Winner(ScoreTable(Lower(text)))
  }

  /** No keyword occurs in the lowercased text exactly when `_keyword_detect`
      returns None; otherwise it returns the category of highest score, the
      earliest in pattern order among those tied. */
  lemma KeywordIntentSpec(text: string)
    ensures KeywordIntent(text).None? ==> forall i :: 0 <= i < |PatternKinds| ==> ScoreTable(Lower(text))[i].1 == 0
    ensures (forall i :: 0 <= i < |PatternKinds| ==> ScoreTable(Lower(text))[i].1 == 0) ==> KeywordIntent(text).None?
    ensures KeywordIntent(text).Some? ==>
      exists i :: Leads(ScoreTable(Lower(text)), i) && ScoreTable(Lower(text))[i].0 == KeywordIntent(text).value
  {
    WinnerSpec(ScoreTable(Lower(text)));
  }

  /** A keyword hit is one of the seven pattern categories. */
  lemma KeywordIntentCategory(text: string)
    requires KeywordIntent(text).Some?
    ensures KeywordIntent(text).value in PatternKinds
  {
    var table := ScoreTable(Lower(text));
    WinnerFromTable(table);
    var i :| 0 <= i < |table| && table[i].0 == Winner(table).value;
    assert table[i].0 == PatternKinds[i];
  }

  /** A tie between the first and the sixth pattern goes to the first, as
      `max` keeps the earliest of equal keys. */
  lemma TieGoesToEarliest()
    ensures Winner([(Greeting, 2), (Weather, 0), (Time, 0), (Reminder, 0), (Calculation, 0),
                    (Question, 2), (Command, 0)]) == Some(Greeting)
  {
    var s := [(Greeting, 2), (Weather, 0), (Time, 0), (Reminder, 0), (Calculation, 0), (Question, 2), (Command, 0)];
    assert s[..1][..0] == s[..0];
    assert Positive(s[..1]) == [(Greeting, 2)];
    assert s[..2][..1] == s[..1];
    assert Positive(s[..2]) == [(Greeting, 2)];
    assert s[..3][..2] == s[..2];
    assert Positive(s[..3]) == [(Greeting, 2)];
    assert s[..4][..3] == s[..3];
    assert Positive(s[..4]) == [(Greeting, 2)];
    assert s[..5][..4] == s[..4];
    assert Positive(s[..5]) == [(Greeting, 2)];
    assert s[..6][..5] == s[..5];
    assert Positive(s[..6]) == [(Greeting, 2), (Question, 2)];
    assert s[..6] == s[..|s| - 1];
    assert Positive(s) == [(Greeting, 2), (Question, 2)];
    assert [(Greeting, 2), (Question, 2)][..1] == [(Greeting, 2)];
  }

  /** `_get_intent_description`. */
  function Description(t: IntentType): string {
    match t
    case Greeting => "User is greeting or starting a conversation"
    case Weather => "User is asking about weather or climate"
    case Time => "User is asking about time or date"
    case Reminder => "User wants to set a reminder or alarm"
    case Calculation => "User wants to perform a calculation"
    case Question => "User is asking a question"
    case Command => "User is giving a command or instruction"
    case General => "General conversation or query"
    case _ => "General query"
  }

  /** A keyword hit is always described by its own canned text, never by the
      "General query" default. */
  lemma KeywordDescription(text: string)
    requires KeywordIntent(text).Some?
    ensures Description(KeywordIntent(text).value) != "General query"
  {
    KeywordIntentCategory(text);
  }

  // ------------------------------------------------------------ the LLM reply

  /** The three things `_parse_llm_response` reassigns while reading lines. */
  datatype Reply = Reply(kind: IntentType, entities: map<string, string>, description: string)

  /** The values it starts from. */
  const EmptyReply := Reply(General, map[], "General query")

  /** One comma piece of an ENTITIES list: `pair.split(":", 1)` with both
      halves stripped when the piece holds a ':', None when it is skipped. */
  function PairOf(piece: string): (r: Option<(string, string)>)
    ensures r.Some? <==> ':' in piece
  {
    if ':' in piece then
      var (before, after) := SplitOnce(piece, ':');
      Some((Strip(before), Strip(after)))
    else None
  }

  /** A pair is the piece split at its first ':', both halves stripped. */
  lemma PairOfSplit(piece: string)
    requires ':' in piece
    ensures exists before, after :: piece == before + [':'] + after && ':' !in before
                                    && PairOf(piece) == Some((Strip(before), Strip(after)))
  {
    var split := SplitOnce(piece, ':');
    var before, after := split.0, split.1;
    assert PairOf(piece) == Some((Strip(before), Strip(after)));
    assert piece == before + [':'] + after && ':' !in before;
  }

  /** The piece-by-piece view of a comma list. */
  function PairsOf(pieces: seq<string>): (r: seq<Option<(string, string)>>)
    ensures |r| == |pieces| && forall j :: 0 <= j < |r| ==> r[j] == PairOf(pieces[j])
  {
    seq(|pieces|, j requires 0 <= j < |pieces| => PairOf(pieces[j]))
  }

  /** What a line of the reply is, once stripped and labelled. An ENTITIES
      line carries the pairs of its list, none when the list reads "none". */
  datatype Line = IntentLine(value: string) | EntitiesLine(pairs: seq<Option<(string, string)>>)
                | DescriptionLine(text: string) | OtherLine

  /** The label of a line, checked in the order of the `if`/`elif` chain, and
      what it carries: the rest of the line with every label occurrence
      removed and stripped (and lowercased for INTENT). */
  function Classify(raw: string): Line {
    var line := Strip(raw);
    if IsPrefix("INTENT:", line) then IntentLine(Lower(Strip(ReplaceAll(line, "INTENT:", ""))))
    else if IsPrefix("ENTITIES:", line) then
      var listed := Strip(ReplaceAll(line, "ENTITIES:", ""));
      EntitiesLine(if Lower(listed) == "none" then [] else PairsOf(Split(listed, ',')))
    else if IsPrefix("DESCRIPTION:", line) then DescriptionLine(Strip(ReplaceAll(line, "DESCRIPTION:", "")))
    else OtherLine
  }

  /** An ENTITIES list reading "none", in any case, carries no pairs; any
      other list carries one entry per comma piece. */
  lemma ClassifyEntities(raw: string)
    requires Classify(raw).EntitiesLine?
    ensures var listed := Strip(ReplaceAll(Strip(raw), "ENTITIES:", ""));
      && (Lower(listed) == "none" ==> Classify(raw).pairs == [])
      && (Lower(listed) != "none" ==> |Classify(raw).pairs| == |Split(listed, ',')| >= 1)
  {
  }

  /** The pair loop: each pair sets its key, skipped pieces do nothing. */
  function AddPairs(entities: map<string, string>, pairs: seq<Option<(string, string)>>): map<string, string>
    decreases |pairs|
  {
    if pairs == [] then entities
    else
      var before := AddPairs(entities, pairs[..|pairs| - 1]);
      var last := pairs[|pairs| - 1];
      if last.Some? then before[last.value.0 := last.value.1] else before
  }

  /** Piece `j` holds a pair with key `key`. */
  predicate Names(pairs: seq<Option<(string, string)>>, j: int, key: string) {
    0 <= j < |pairs| && pairs[j].Some? && pairs[j].value.0 == key
  }

  /** A key is present after the pair loop exactly when it was before or some
      piece names it. */
  lemma {:induction false} AddPairsKeys(entities: map<string, string>, pairs: seq<Option<(string, string)>>, key: string)
    ensures key in AddPairs(entities, pairs) <==> key in entities || exists j :: Names(pairs, j, key)
    decreases |pairs|
  {
    if pairs != [] {
      var front := pairs[..|pairs| - 1];
      var n := |pairs| - 1;
      AddPairsKeys(entities, front, key);
      if Names(pairs, n, key) {
        assert key in AddPairs(entities, pairs);
      } else {
        assert key in AddPairs(entities, pairs) <==> key in AddPairs(entities, front);
        if exists j :: Names(pairs, j, key) {
          var j :| Names(pairs, j, key);
          assert Names(front, j, key);
        }
        if exists j :: Names(front, j, key) {
          var j :| Names(front, j, key);
          assert Names(pairs, j, key);
        }
      }
    }
  }

  /** A repeated key keeps the value of the last piece naming it. */
  lemma {:induction false} AddPairsLastWins(entities: map<string, string>, pairs: seq<Option<(string, string)>>, j: int)
    requires 0 <= j < |pairs| && pairs[j].Some?
    requires forall l :: j < l < |pairs| ==> !Names(pairs, l, pairs[j].value.0)
    ensures pairs[j].value.0 in AddPairs(entities, pairs)
    ensures AddPairs(entities, pairs)[pairs[j].value.0] == pairs[j].value.1
    decreases |pairs|
  {
    var n := |pairs| - 1;
    if j < n {
      var front := pairs[..n];
      assert front[j] == pairs[j];
      forall l | j < l < |front|
        ensures !Names(front, l, pairs[j].value.0)
      {
        assert front[l] == pairs[l];
        assert !Names(pairs, l, pairs[j].value.0);
      }
      AddPairsLastWins(entities, front, j);
      assert !Names(pairs, n, pairs[j].value.0);
    }
  }

  /** A key no piece names keeps the value it had. */
  lemma {:induction false} AddPairsUntouched(entities: map<string, string>, pairs: seq<Option<(string, string)>>, key: string)
    requires key in entities
    requires forall l :: 0 <= l < |pairs| ==> !Names(pairs, l, key)
    ensures key in AddPairs(entities, pairs) && AddPairs(entities, pairs)[key] == entities[key]
    decreases |pairs|
  {
    if pairs != [] {
      var n := |pairs| - 1;
      var front := pairs[..n];
      forall l | 0 <= l < |front|
        ensures !Names(front, l, key)
      {
        assert front[l] == pairs[l];
        assert !Names(pairs, l, key);
      }
      AddPairsUntouched(entities, front, key);
      assert !Names(pairs, n, key);
    }
  }

  /** Running the pair loop over two lists one after the other is running it
      over their concatenation. */
  lemma {:induction false} AddPairsAppend(entities: map<string, string>, a: seq<Option<(string, string)>>,
                                          b: seq<Option<(string, string)>>)
    ensures AddPairs(AddPairs(entities, a), b) == AddPairs(entities, a + b)
    decreases |b|
  {
    if b == [] {
      assert a + b == a;
    } else {
      var front := b[..|b| - 1];
      var last := b[|b| - 1];
      AddPairsAppend(entities, a, front);
      var ab := a + b;
      assert ab[..|ab| - 1] == a + front;
      assert ab[|ab| - 1] == last;
      var before := AddPairs(entities, a + front);
      assert AddPairs(entities, ab) == if last.Some? then before[last.value.0 := last.value.1] else before;
    }
  }

  /** The member an INTENT line names, GENERAL when it names none. */
  function IntentOf(value: string): (t: IntentType)
    ensures FromValue(value).Some? ==> Value(t) == value
    ensures FromValue(value).None? ==> t == General
  {
    var t := FromValue(value);
    if t.Some? then t.value else General
  }

  /** One line's effect. */
  function Apply(reply: Reply, line: Line): Reply {
    match line
    case IntentLine(value) => reply.(kind := IntentOf(value))
    case EntitiesLine(pairs) => reply.(entities := AddPairs(reply.entities, pairs))
    case DescriptionLine(text) => reply.(description := text)
    case OtherLine => reply
  }

  /** The lines read in order. */
  function ApplyAll(reply: Reply, lines: seq<Line>): Reply
    decreases |lines|
  {
    if lines == [] then reply else Apply(ApplyAll(reply, lines[..|lines| - 1]), lines[|lines| - 1])
  }

  /** Each reply line, labelled. */
  function ClassifyAll(lines: seq<string>): (r: seq<Line>)
    ensures |r| == |lines| && forall j :: 0 <= j < |r| ==> r[j] == Classify(lines[j])
  {
    seq(|lines|, j requires 0 <= j < |lines| => Classify(lines[j]))
  }

  /** The lines of a reply: `response.strip().split('\n')`, labelled. */
  function ReplyLines(response: string): seq<Line> {
    ClassifyAll(Split(Strip(response), '\n'))
  }

  /** What `_parse_llm_response(response, original_text, english_text)` returns. */
  function ParsedIntent(response: string, originalText: string, englishText: string): Intent {
    var reply := ApplyAll(EmptyReply, ReplyLines(response));
    Intent(reply.kind, 0.85, reply.entities, originalText, englishText, reply.description)
  }

  /** Without INTENT lines the intent stays as it started. */
  lemma {:induction false} NoIntentLineKeeps(reply: Reply, lines: seq<Line>)
    requires forall l :: 0 <= l < |lines| ==> !lines[l].IntentLine?
    ensures ApplyAll(reply, lines).kind == reply.kind
    decreases |lines|
  {
    if lines != [] {
      var front := lines[..|lines| - 1];
      assert forall l :: 0 <= l < |front| ==> front[l] == lines[l];
      NoIntentLineKeeps(reply, front);
    }
  }

  /** The last INTENT line decides the intent, whatever came before it. */
  lemma {:induction false} LastIntentLineWins(reply: Reply, lines: seq<Line>, k: int)
    requires 0 <= k < |lines| && lines[k].IntentLine?
    requires forall l :: k < l < |lines| ==> !lines[l].IntentLine?
    ensures ApplyAll(reply, lines).kind == IntentOf(lines[k].value)
    decreases |lines|
  {
    var n := |lines| - 1;
    if k < n {
      var front := lines[..n];
      assert front[k] == lines[k];
      assert forall l :: k < l < |front| ==> front[l] == lines[l];
      LastIntentLineWins(reply, front, k);
    }
  }

  /** Without DESCRIPTION lines the description stays as it started. */
  lemma {:induction false} NoDescriptionLineKeeps(reply: Reply, lines: seq<Line>)
    requires forall l :: 0 <= l < |lines| ==> !lines[l].DescriptionLine?
    ensures ApplyAll(reply, lines).description == reply.description
    decreases |lines|
  {
    if lines != [] {
      var front := lines[..|lines| - 1];
      assert forall l :: 0 <= l < |front| ==> front[l] == lines[l];
      NoDescriptionLineKeeps(reply, front);
    }
  }

  /** The last DESCRIPTION line decides the description. */
  lemma {:induction false} LastDescriptionLineWins(reply: Reply, lines: seq<Line>, k: int)
    requires 0 <= k < |lines| && lines[k].DescriptionLine?
    requires forall l :: k < l < |lines| ==> !lines[l].DescriptionLine?
    ensures ApplyAll(reply, lines).description == lines[k].text
    decreases |lines|
  {
    var n := |lines| - 1;
    if k < n {
      var front := lines[..n];
      assert front[k] == lines[k];
      assert forall l :: k < l < |front| ==> front[l] == lines[l];
      LastDescriptionLineWins(reply, front, k);
    }
  }

  /** The pairs of all ENTITIES lines, in order. */
  function LinePairs(lines: seq<Line>): seq<Option<(string, string)>>
    decreases |lines|
  {
    if lines == [] then []
    else LinePairs(lines[..|lines| - 1])
         + (if lines[|lines| - 1].EntitiesLine? then lines[|lines| - 1].pairs else [])
  }

  /** The entities of a reply are the pair loop over the pieces of all its
      ENTITIES lines together: other lines add nothing, and a key repeated on a
      later line overrides. */
  lemma {:induction false} EntitiesFromLines(reply: Reply, lines: seq<Line>)
    ensures ApplyAll(reply, lines).entities == AddPairs(reply.entities, LinePairs(lines))
    decreases |lines|
  {
    if lines != [] {
      var front := lines[..|lines| - 1];
      var last := lines[|lines| - 1];
      EntitiesFromLines(reply, front);
      var r := ApplyAll(reply, front);
      assert ApplyAll(reply, lines) == Apply(r, last);
      if last.EntitiesLine? {
        AddPairsAppend(reply.entities, LinePairs(front), last.pairs);
      } else {
        assert Apply(r, last).entities == r.entities;
        assert LinePairs(lines) == LinePairs(front) + [];
        assert LinePairs(front) + [] == LinePairs(front);
      }
    }
  }

  /** Without ENTITIES lines there are no pairs. */
  lemma {:induction false} NoEntitiesLine(lines: seq<Line>)
    requires forall l :: 0 <= l < |lines| ==> !lines[l].EntitiesLine?
    ensures LinePairs(lines) == []
    decreases |lines|
  {
    if lines != [] {
      var front := lines[..|lines| - 1];
      assert forall l :: 0 <= l < |front| ==> front[l] == lines[l];
      NoEntitiesLine(front);
    }
  }

  /** The parsed intent always has confidence 0.85 and echoes both texts; a
      reply without labelled lines gives GENERAL, no entities and "General query". */
  lemma ParsedIntentShape(response: string, originalText: string, englishText: string)
    ensures var r := ParsedIntent(response, originalText, englishText);
      && r.confidence == 0.85 && r.originalText == originalText && r.englishText == englishText
      && ((forall l :: 0 <= l < |ReplyLines(response)| ==> ReplyLines(response)[l].OtherLine?) ==>
            r.kind == General && r.entities == map[] && r.description == "General query")
  {
    var lines := ReplyLines(response);
    if forall l :: 0 <= l < |lines| ==> lines[l].OtherLine? {
      NoIntentLineKeeps(EmptyReply, lines);
      NoDescriptionLineKeeps(EmptyReply, lines);
      NoEntitiesLine(lines);
      EntitiesFromLines(EmptyReply, lines);
    }
  }

  /** The pair loop of an ENTITIES line, piece by piece. */
  method AddEntityPairs(entities: map<string, string>, pieces: seq<string>) returns (updated: map<string, string>)
    ensures updated == AddPairs(entities, PairsOf(pieces))
  {
    updated := entities;
    var i := 0;
    while i < |pieces|
      invariant 0 <= i <= |pieces|
      invariant updated == AddPairs(entities, PairsOf(pieces[..i]))
    {
      var piece := pieces[i];
      ghost var done := PairsOf(pieces[..i + 1]);
      assert done[..i] == PairsOf(pieces[..i]);
      assert done[i] == PairOf(piece);
      if ':' in piece {
        var (k, v) := SplitOnce(piece, ':');
        assert PairOf(piece) == Some((Strip(k), Strip(v)));
        updated := updated[Strip(k) := Strip(v)];
      }
      i := i + 1;
    }
    assert pieces[..i] == pieces;
  }

  /** One pass of the line loop of `_parse_llm_response`: the stripped line is
      checked against the labels in order and updates the intent, the entities
      or the description. */
  method ReadLine(kind: IntentType, entities: map<string, string>, description: string, raw: string)
    returns (kind': IntentType, entities': map<string, string>, description': string)
    ensures Reply(kind', entities', description') == Apply(Reply(kind, entities, description), Classify(raw))
  {
    kind', entities', description' := kind, entities, description;
    var line := Strip(raw);
    if IsPrefix("INTENT:", line) {
      kind' := IntentOf(Lower(Strip(ReplaceAll(line, "INTENT:", ""))));
    } else if IsPrefix("ENTITIES:", line) {
      var listed := Strip(ReplaceAll(line, "ENTITIES:", ""));
      if Lower(listed) != "none" {
        entities' := AddEntityPairs(entities, Split(listed, ','));
      }
    } else if IsPrefix("DESCRIPTION:", line) {
      description' := Strip(ReplaceAll(line, "DESCRIPTION:", ""));
    }
  }

  /** `_parse_llm_response`: reads the stripped reply line by line. */
  method ParseLlmResponse(response: string, originalText: string, englishText: string) returns (intent: Intent)
    ensures intent == ParsedIntent(response, originalText, englishText)
  {
    var kind := General;
    var entities: map<string, string> := map[];
    var description := "General query";
    var lines := Split(Strip(response), '\n');
    ghost var labelled := ClassifyAll(lines);
    var i := 0;
    while i < |lines|
      invariant 0 <= i <= |lines|
      invariant Reply(kind, entities, description) == ApplyAll(EmptyReply, labelled[..i])
    {
      assert labelled[..i + 1][..i] == labelled[..i];
      assert labelled[..i + 1][i] == Classify(lines[i]);
      kind, entities, description := ReadLine(kind, entities, description, lines[i]);
      i := i + 1;
    }
    assert labelled[..i] == labelled;
    intent := Intent(kind, 0.85, entities, originalText, englishText, description);
  }

  // ------------------------------------------------------------ detect

  /** `english_text or text`. */
  function EnglishOrText(text: string, englishText: Option<string>): string {
    if englishText.None? || englishText.value == "" then text else englishText.value
  }

  /** What `detect` returns when the LLM is not consulted: the keyword hit
      with confidence 0.8, or GENERAL with 0.5. */
  function OfflineDetection(text: string, englishText: Option<string>): Intent {
    var english := EnglishOrText(text, englishText);
    match KeywordIntent(Lower(english))
    case Some(t) => Intent(t, 0.8, map[], text, english, Description(t))
    case None => Intent(General, 0.5, map[], text, english, "General conversation or query")
  }

  /** What `_llm_detect` returns, given whether an LLM is available, whether
      its model is loaded and the history it holds. */
  function LlmOutcome(available: bool, loaded: bool, history: seq<Qwen.Message>, originalText: string,
                      englishText: string, generate: Qwen.GenerationRequest -> Result<Qwen.Generation>,
                      env: Qwen.LoadEnv): Intent
  {
    var fallback := Intent(General, 0.5, map[], originalText, englishText, "General query");
    if !available || (!loaded && env.failure.Some?) then fallback
    else
      match generate(Qwen.GenerationRequest(Qwen.Prompt(ClassifierPrompt, history, 10, ClassifyRequest(englishText)), 100))
      case Err(_) => fallback
      case Ok(g) => ParsedIntent(Strip(g.decoded), originalText, englishText)
  }

  /** The keyword path describes a hit by its category, and a text with no
      keyword gets GENERAL with 0.5; both echo the texts and find no entities. */
  lemma OfflineDetectionSpec(text: string, englishText: Option<string>)
    ensures var r := OfflineDetection(text, englishText);
      && r.originalText == text && r.englishText == EnglishOrText(text, englishText) && r.entities == map[]
      && (KeywordIntent(Lower(EnglishOrText(text, englishText))).Some? ==>
            r.kind == KeywordIntent(Lower(EnglishOrText(text, englishText))).value
            && r.description == Description(r.kind)
            && r.confidence == 0.8 && r.description != "General query" && r.kind != General)
      && (KeywordIntent(Lower(EnglishOrText(text, englishText))).None? ==>
            r.kind == General && r.confidence == 0.5 && r.description == "General conversation or query")
  {
    var analysis := Lower(EnglishOrText(text, englishText));
    if KeywordIntent(analysis).Some? {
      KeywordIntentCategory(analysis);
    }
  }

  /** An unavailable LLM, a failed load and a raising generation all give
      GENERAL with 0.5 and "General query"; a reply gives the parse of the
      stripped reply text, with confidence 0.85. */
  lemma LlmOutcomeSpec(available: bool, loaded: bool, history: seq<Qwen.Message>, originalText: string,
                       englishText: string, generate: Qwen.GenerationRequest -> Result<Qwen.Generation>,
                       env: Qwen.LoadEnv)
    ensures var r := LlmOutcome(available, loaded, history, originalText, englishText, generate, env);
      var request := Qwen.GenerationRequest(Qwen.Prompt(ClassifierPrompt, history, 10, ClassifyRequest(englishText)), 100);
      && r.originalText == originalText && r.englishText == englishText
      && ((!available || (!loaded && env.failure.Some?) || generate(request).Err?) ==>
            r == Intent(General, 0.5, map[], originalText, englishText, "General query"))
      && (available && (loaded || env.failure.None?) && generate(request).Ok? ==>
            r == ParsedIntent(Strip(generate(request).value.decoded), originalText, englishText)
            && r.confidence == 0.85)
  {
  }

  /** The state of a chat wrapper just created with the default device. */
  const FreshLlmState := Qwen.LlmState("cuda", false, [])

  /** The state a classifier wrapper is left in by one `chat` call with
      `max_new_tokens=100` and `remember=False`, starting from `before`. */
  function ClassifierChatState(before: Qwen.LlmState, englishText: string,
                               generate: Qwen.GenerationRequest -> Result<Qwen.Generation>, env: Qwen.LoadEnv): (r: Qwen.LlmState)
    ensures r.history == before.history
  {
    Qwen.ChatOutcomeSpec(before, "1.5b", ClassifierPrompt, 10, ClassifyRequest(englishText), generate, env, 100, false);
    Qwen.ChatOutcome(before, "1.5b", ClassifierPrompt, 10, ClassifyRequest(englishText), generate, env, 100, false).1
  }

  class IntentDetector {
    const useLlm: bool
    /** `_llm`, created on first use when `use_llm` holds. */
    var llm: Qwen.QwenLlm?

    ghost predicate Valid()
      reads this, llm
    {
      llm != null ==> useLlm && llm.modelSize == "1.5b" && llm.maxMemoryMessages == 10
                      && llm.systemPrompt == ClassifierPrompt
    }

    /** `IntentDetector(use_llm)`: no LLM yet. */
    constructor (useLlm: bool := true)
      ensures Valid() && this.useLlm == useLlm && llm == null
    {
      this.useLlm := useLlm;
      llm := null;
    }

    /** `_get_llm`: creates the 1.5B chat wrapper with the classifier prompt
        once, and only when `use_llm` holds. */
    method GetLlm() returns (l: Qwen.QwenLlm?)
      requires Valid()
      modifies this`llm
      ensures Valid() && l == llm
      ensures old(llm) != null ==> llm == old(llm)
      ensures old(llm) == null ==> (l != null <==> useLlm)
      ensures old(llm) == null && l != null ==> fresh(l) && l.State() == FreshLlmState
    {
      if llm == null && useLlm {
        var created := new Qwen.QwenLlm("1.5b");
        created.SetSystemPrompt(ClassifierPrompt);
        llm := created;
      }
      l := llm;
    }

    /** `_keyword_detect`: scores every pattern category in order, keeps the
        positive scores and returns the first maximum. */
    method KeywordDetect(text: string) returns (r: Option<IntentType>)
      ensures r == KeywordIntent(text)
    {
      var lowered := Lower(text);
      var scores: seq<(IntentType, nat)> := [];
      var i := 0;
      assert |PatternKeywords| == |PatternKinds|;
      while i < |PatternKinds|
        invariant 0 <= i <= |PatternKinds|
        invariant scores == Positive(ScoreTable(lowered)[..i])
      {
        var kind := PatternKinds[i];
        var score := CountOccurring(PatternKeywords[i], lowered);
        assert ScoreTable(lowered)[..i + 1][..i] == ScoreTable(lowered)[..i];
        assert ScoreTable(lowered)[i] == (kind, score);
        if score > 0 {
          scores := scores + [(kind, score)];
        }
        i := i + 1;
      }
      assert ScoreTable(lowered)[..i] == ScoreTable(lowered);
      if scores == [] {
        return None;
      }
      r := Some(FirstMax(scores).0);
    }

    /** `_llm_detect`: asks the classifier without remembering the turn, so
        the LLM's history is never changed; every failure falls back. */
    method LlmDetect(originalText: string, englishText: string,
                     generate: Qwen.GenerationRequest -> Result<Qwen.Generation>, env: Qwen.LoadEnv)
      returns (intent: Intent)
      requires Valid()
      modifies this`llm, llm
      ensures Valid()
      ensures old(llm) != null ==> llm == old(llm)
      ensures llm != null ==> llm.history == if old(llm) == null then [] else old(llm.history)
      ensures old(llm) == null && llm != null ==> fresh(llm)
      ensures llm != null ==>
        llm.State() == ClassifierChatState(if old(llm) == null then FreshLlmState else old(llm.State()),
                                           englishText, generate, env)
      ensures intent == LlmOutcome(useLlm, old(llm) != null && old(llm.modelLoaded),
                                   if old(llm) == null then [] else old(llm.history),
                                   originalText, englishText, generate, env)
    {
      var l := GetLlm();
      if l == null {
        return Intent(General, 0.5, map[], originalText, englishText, "General query");
      }
      var response := l.Chat(ClassifyRequest(englishText), generate, env, 100, false);
      if response.Err? {
        return Intent(General, 0.5, map[], originalText, englishText, "General query");
      }
      intent := ParseLlmResponse(response.value.content, originalText, englishText);
    }

    /** `detect`: the keyword hit if there is one, otherwise the LLM when
        `use_llm` holds, otherwise GENERAL. */
    method Detect(text: string, englishText: Option<string>,
                  generate: Qwen.GenerationRequest -> Result<Qwen.Generation>, env: Qwen.LoadEnv)
      returns (intent: Intent)
      requires Valid()
      modifies this`llm, llm
      ensures Valid()
      ensures old(llm) != null ==> llm == old(llm)
      ensures llm != null ==> llm.history == if old(llm) == null then [] else old(llm.history)
      ensures old(llm) == null && llm != null ==> fresh(llm)
      ensures !useLlm || KeywordIntent(Lower(EnglishOrText(text, englishText))).Some? ==>
        intent == OfflineDetection(text, englishText) && llm == old(llm)
        && (llm != null ==> llm.State() == old(llm.State()))
      ensures useLlm && KeywordIntent(Lower(EnglishOrText(text, englishText))).None? ==>
        intent == LlmOutcome(true, old(llm) != null && old(llm.modelLoaded),
                             if old(llm) == null then [] else old(llm.history),
                             text, EnglishOrText(text, englishText), generate, env)
        && (llm != null ==>
              llm.State() == ClassifierChatState(if old(llm) == null then FreshLlmState else old(llm.State()),
                                                 EnglishOrText(text, englishText), generate, env))
    {
      var english := EnglishOrText(text, englishText);
      var analysis := Lower(english);
      var detected := KeywordDetect(analysis);
      if detected.Some? {
        KeywordIntentCategory(analysis);
      }
      if detected.Some? && detected.value != Unknown {
        return Intent(detected.value, 0.8, map[], text, english, Description(detected.value));
      }
      if useLlm {
        intent := LlmDetect(text, english, generate, env);
        return;
      }
      intent := Intent(General, 0.5, map[], text, english, "General conversation or query");
    }
  }
}
