/** The keyword intent classifier of `nlu/intent.py`: for each intent of the
    fixed table, in table order, the share of its keywords found in the
    lowercased text gives a confidence `min(m/k + 0.3, 1.0)`, and the first
    intent with the strictly greatest confidence wins. Entities are the time
    matches of the text followed by the number matches not already present;
    the two regular-expression match lists are given rather than computed. */
module Nlu {
  import Text
  import opened Outcomes

  /** One `{"type": ..., "value": ...}` entity. */
  datatype Entity = Entity(kind: string, value: string)

  /** The `IntentResult` dataclass. */
  datatype IntentResult = IntentResult(intent: string, confidence: real, entities: seq<Entity>, language: string)

  /** What the two `re.findall` calls of `_extract_entities` return for a
      text: the time matches and the number matches, each in text order. */
  datatype Found = Found(times: seq<string>, numbers: seq<string>)

  /** `INTENTS`, in declaration order. */
  const Intents: seq<(string, seq<string>)> := [
    ("greeting", ["hello", "hi", "namaste", "vanakkam", "namaskar"]),
    ("farewell", ["bye", "goodbye", "see you", "alvida"]),
    ("weather", ["weather", "temperature", "rain", "mausam"]),
    ("time", ["time", "samay", "clock", "what time"]),
    ("reminder", ["remind", "reminder", "yaad dilao", "schedule"]),
    ("search", ["search", "find", "look for", "dhundho"]),
    ("play_music", ["play", "music", "song", "gaana"]),
    ("smart_home", ["light", "fan", "ac", "door", "turn on", "turn off"]),
    ("help", ["help", "madad", "assist", "sahayata"])]

  /** The intent reported when no keyword matches. */
  const UnknownIntent: string := "unknown"

  // ------------------------------------------------------------ confidence

  /** `min(matches / len(keywords) + 0.3, 1.0)`, in exact arithmetic. */
  function Confidence(m: nat, k: nat): real
    requires 0 < m <= k
  {
    var c := m as real / k as real + 0.3;
    if c <= 1.0 then c else 1.0
  }

  /** The confidence an intent with these keywords would get on `text`,
      or 0 when none of them matches. */
  function Conf(keywords: seq<string>, text: string): real {
    var m := Text.CountOccurring(keywords, text);
    if m > 0 then Confidence(m, |keywords|) else 0.0
  }

  /** A confidence is 0 exactly when no keyword occurs; otherwise it is above
      0.3 and at most 1, and it is 1 when every keyword occurs. */
  lemma ConfSpec(keywords: seq<string>, text: string)
    ensures Conf(keywords, text) == 0.0 <==> forall k :: 0 <= k < |keywords| ==> !Text.IsSubstring(keywords[k], text)
    ensures Conf(keywords, text) != 0.0 ==> 0.3 < Conf(keywords, text) <= 1.0
    ensures keywords != [] && (forall k :: 0 <= k < |keywords| ==> Text.IsSubstring(keywords[k], text)) ==>
              Conf(keywords, text) == 1.0
  {
    Text.CountOccurringSpec(keywords, text);
    var m := Text.CountOccurring(keywords, text);
    if m > 0 {
      ConfidenceRange(m, |keywords|);
    }
  }

  /** A rule confidence lies in (0.3, 1], and is 1 when every keyword matched. */
  lemma ConfidenceRange(m: nat, k: nat)
    requires 0 < m <= k
    ensures 0.3 < Confidence(m, k) <= 1.0
    ensures m == k ==> Confidence(m, k) == 1.0
  {
    assert m as real / k as real > 0.0;
    if m == k {
      assert m as real / k as real == 1.0;
    }
  }

  // ---------------------------------------------------------- best intent

  /** The `(best_intent, best_confidence)` pair after scanning `table`: an
      entry replaces the best so far only with a strictly greater confidence. */
  function Best(table: seq<(string, seq<string>)>, text: string): (string, real)
    decreases |table|
  {
    if table == [] then (UnknownIntent, 0.0)
    else
      var prev := Best(table[..|table| - 1], text);
      var c := Conf(table[|table| - 1].1, text);
      if c > prev.1 then (table[|table| - 1].0, c) else prev
  }

  /** Entry `j` has the greatest confidence of the table, and every earlier
      entry a strictly smaller one: it is the first maximum. */
  ghost predicate Leads(table: seq<(string, seq<string>)>, text: string, j: int) {
    && 0 <= j < |table|
    && (forall i :: 0 <= i < j ==> Conf(table[i].1, text) < Conf(table[j].1, text))
    && (forall i :: j < i < |table| ==> Conf(table[i].1, text) <= Conf(table[j].1, text))
  }

  /** The scan's confidence is the greatest of the table, and it stays at
      0 with "unknown" exactly when no entry matches. */
  lemma {:induction false} BestIsMax(table: seq<(string, seq<string>)>, text: string)
    ensures 0.0 <= Best(table, text).1
    ensures forall i :: 0 <= i < |table| ==> Conf(table[i].1, text) <= Best(table, text).1
    ensures Best(table, text).1 == 0.0 <==> forall i :: 0 <= i < |table| ==> Conf(table[i].1, text) == 0.0
    ensures Best(table, text).1 == 0.0 ==> Best(table, text).0 == UnknownIntent
    decreases |table|
  {
    if table != [] {
      var n := |table|;
      var front := table[..n - 1];
      BestIsMax(front, text);
      assert forall i :: 0 <= i < n - 1 ==> front[i] == table[i];
      ConfSpec(table[n - 1].1, text);
    }
  }

  /** When any keyword matches, the scan finds the first entry of greatest
      confidence, so ties go to the earliest entry. */
  lemma {:induction false} BestSpec(table: seq<(string, seq<string>)>, text: string)
    ensures Best(table, text).1 != 0.0 ==>
              exists j :: Leads(table, text, j) && Best(table, text) == (table[j].0, Conf(table[j].1, text))
    decreases |table|
  {
    if table != [] {
      var n := |table|;
      var front := table[..n - 1];
      BestSpec(front, text);
      BestIsMax(front, text);
      assert forall i :: 0 <= i < n - 1 ==> front[i] == table[i];
      var prev := Best(front, text);
      var c := Conf(table[n - 1].1, text);
      if c > prev.1 {
        assert Leads(table, text, n - 1);
      } else if prev.1 != 0.0 {
        var j :| Leads(front, text, j) && prev == (front[j].0, Conf(front[j].1, text));
        assert Leads(table, text, j);
      }
    }
  }

  /** `_keyword_classify` on an already lowercased text. */
  function KeywordResult(text: string, language: string, found: Found): IntentResult {
    var best := Best(Intents, text);
    IntentResult(best.0, best.1, Entities(found), language)
  }

  /** The classification the table gives: "unknown" with confidence 0
      exactly when no keyword of any intent occurs in the text; otherwise the
      first intent of greatest confidence, a confidence above 0.3 and at
      most 1; the language is echoed. */
  lemma KeywordResultSpec(text: string, language: string, found: Found)
    ensures var r := KeywordResult(text, language, found);
      && r.language == language
      && (r.intent == UnknownIntent <==> r.confidence == 0.0)
      && (r.confidence == 0.0 <==>
            forall i, k :: 0 <= i < |Intents| && 0 <= k < |Intents[i].1| ==> !Text.IsSubstring(Intents[i].1[k], text))
      && (r.intent != UnknownIntent ==>
            && 0.3 < r.confidence <= 1.0
            && exists j :: Leads(Intents, text, j) && r.intent == Intents[j].0 && r.confidence == Conf(Intents[j].1, text))
  {
    BestIsMax(Intents, text);
    BestSpec(Intents, text);
    var best := Best(Intents, text);
    forall i | 0 <= i < |Intents|
      ensures Conf(Intents[i].1, text) == 0.0 <==>
                forall k :: 0 <= k < |Intents[i].1| ==> !Text.IsSubstring(Intents[i].1[k], text)
    {
      ConfSpec(Intents[i].1, text);
    }
    if best.1 != 0.0 {
      var j :| Leads(Intents, text, j) && best == (Intents[j].0, Conf(Intents[j].1, text));
      ConfSpec(Intents[j].1, text);
      SupportedIntentsNamed();
      assert SupportedIntents()[j] == Intents[j].0;
    }
  }

  /** When one intent is the only one with a keyword in the text, it wins,
      whatever its place in the table. */
  lemma SoleLeader(text: string, language: string, found: Found, win: int)
    requires 0 <= win < |Intents|
    requires Conf(Intents[win].1, text) != 0.0
    requires forall i :: 0 <= i < |Intents| && i != win ==> Conf(Intents[i].1, text) == 0.0
    ensures KeywordResult(text, language, found).intent == Intents[win].0
  {
    KeywordResultSpec(text, language, found);
    ConfSpec(Intents[win].1, text);
    var r := KeywordResult(text, language, found);
    var k :| 0 <= k < |Intents[win].1| && Text.IsSubstring(Intents[win].1[k], text);
    assert r.confidence != 0.0;
    var j :| Leads(Intents, text, j) && r.intent == Intents[j].0 && r.confidence == Conf(Intents[j].1, text);
    assert j == win;
  }

  // -------------------------------------------------------------- entities

  /** `[e["value"] for e in entities]`. */
  function Values(es: seq<Entity>): (r: seq<string>)
    ensures |r| == |es| && forall i :: 0 <= i < |es| ==> r[i] == es[i].value
  {
    seq(|es|, i requires 0 <= i < |es| => es[i].value)
  }

  /** The time entities, one per match, in order. */
  function TimeEntities(times: seq<string>): (r: seq<Entity>)
    ensures |r| == |times| && forall i :: 0 <= i < |times| ==> r[i] == Entity("time", times[i])
  {
    seq(|times|, i requires 0 <= i < |times| => Entity("time", times[i]))
  }

  /** `entities` after the number loop over `numbers`: each number is
      appended unless its value is already among the entities. */
  function WithNumbers(es: seq<Entity>, numbers: seq<string>): seq<Entity>
    decreases |numbers|
  {
    if numbers == [] then es
    else
      var prior := WithNumbers(es, numbers[..|numbers| - 1]);
      var n := numbers[|numbers| - 1];
      if n !in Values(prior) then prior + [Entity("number", n)] else prior
  }

  /** `_extract_entities` for the given matches. */
  function Entities(found: Found): seq<Entity> {
    WithNumbers(TimeEntities(found.times), found.numbers)
  }

  /** The number loop keeps what it starts with, appends only numbers from
      the list, never a value already present, and every number ends up
      present as a value. */
  lemma {:induction false} WithNumbersSpec(es: seq<Entity>, numbers: seq<string>)
    ensures var r := WithNumbers(es, numbers);
      && |es| <= |r| && r[..|es|] == es
      && (forall k :: |es| <= k < |r| ==> r[k].kind == "number" && r[k].value in numbers)
      && (forall a, b :: 0 <= a < b < |r| && |es| <= b ==> r[a].value != r[b].value)
      && (forall n :: n in numbers ==> n in Values(r))
    decreases |numbers|
  {
    if numbers != [] {
      var front := numbers[..|numbers| - 1];
      var n := numbers[|numbers| - 1];
      WithNumbersSpec(es, front);
      var prior := WithNumbers(es, front);
      assert numbers == front + [n];
      if n !in Values(prior) {
        var r := prior + [Entity("number", n)];
        assert r[..|es|] == prior[..|es|];
        assert forall a :: 0 <= a < |prior| ==> r[a] == prior[a];
        assert forall a :: 0 <= a < |prior| ==> prior[a].value != n by {
          forall a | 0 <= a < |prior| ensures prior[a].value != n {
            assert Values(prior)[a] == prior[a].value;
          }
        }
        forall m | m in numbers ensures m in Values(r) {
          if m in front {
            var a :| 0 <= a < |prior| && Values(prior)[a] == m;
            assert Values(r)[a] == m;
          } else {
            assert Values(r)[|prior|] == m;
          }
        }
      }
    }
  }

  /** Entities are the time matches first, in order and all of them, then
      number entities whose values are pairwise distinct and differ from
      every time value; every number match is present as a value. */
  lemma EntitiesSpec(found: Found)
    ensures var r := Entities(found);
      && |found.times| <= |r| && r[..|found.times|] == TimeEntities(found.times)
      && (forall k :: |found.times| <= k < |r| ==> r[k].kind == "number" && r[k].value in found.numbers)
      && (forall a, b :: 0 <= a < b < |r| && |found.times| <= b ==> r[a].value != r[b].value)
      && (forall n :: n in found.numbers ==> n in Values(r))
  {
    WithNumbersSpec(TimeEntities(found.times), found.numbers);
  }

  // ------------------------------------------------------------ classifier

  /** `get_supported_intents`: the intent names in declaration order. */
  function SupportedIntents(): (r: seq<string>)
    ensures |r| == |Intents| && forall i :: 0 <= i < |Intents| ==> r[i] == Intents[i].0
  {
    seq(|Intents|, i requires 0 <= i < |Intents| => Intents[i].0)
  }

  /** The assertions of the supported-intents test in `tests/test_basic.py`:
      greeting and weather are supported; also, "unknown" is not an intent of
      the table. */
  lemma SupportedIntentsNamed()
    ensures "greeting" in SupportedIntents() && "weather" in SupportedIntents()
    ensures UnknownIntent !in SupportedIntents()
  {
    assert SupportedIntents()[0] == "greeting";
    assert SupportedIntents()[2] == "weather";
  }

  class IntentClassifier {
    const modelType: string
    /** The trained model, which the modelled code never loads. */
    var model: Option<()>

    /** `IntentClassifier(model_type)`: no model yet. */
    constructor(modelType: string := "keyword")
      ensures this.modelType == modelType && model == None
    {
      this.modelType := modelType;
      model := None;
    }

    /** `classify`: every model type ends in keyword classification of the
        lowercased text, so the result does not depend on the model type. */
    method Classify(text: string, found: Found, language: string := "en") returns (r: IntentResult)
      ensures r == KeywordResult(Text.Lower(text), language, found)
    {
      var textLower := Text.Lower(text);
      if modelType == "keyword" {
        r := KeywordClassify(textLower, language, found);
      } else if modelType == "ml" {
        r := MlClassify(text, language, found);
      } else {
        r := LlmClassify(text, language, found);
      }
    }

    /** `_ml_classify`: the keyword fallback. */
    method MlClassify(text: string, language: string, found: Found) returns (r: IntentResult)
      ensures r == KeywordResult(Text.Lower(text), language, found)
    {
      r := KeywordClassify(Text.Lower(text), language, found);
    }

    /** `_llm_classify`: the keyword fallback. */
    method LlmClassify(text: string, language: string, found: Found) returns (r: IntentResult)
      ensures r == KeywordResult(Text.Lower(text), language, found)
    {
      r := KeywordClassify(Text.Lower(text), language, found);
    }

    /** `_keyword_classify`: the scan over the table, then the entities. */
    method KeywordClassify(text: string, language: string, found: Found) returns (r: IntentResult)
      ensures r == KeywordResult(text, language, found)
    {
      var bestIntent := UnknownIntent;
      var bestConfidence := 0.0;
      var i := 0;
      while i < |Intents|
        invariant 0 <= i <= |Intents|
        invariant (bestIntent, bestConfidence) == Best(Intents[..i], text)
      {
        var (intent, keywords) := Intents[i];
        var matches := Text.CountOccurring(keywords, text);
        assert Intents[..i + 1][..i] == Intents[..i];
        if matches > 0 {
          var confidence := Confidence(matches, |keywords|);
          if confidence > bestConfidence {
            bestConfidence := confidence;
            bestIntent := intent;
          }
        }
        i := i + 1;
      }
      assert Intents[..i] == Intents;
      var entities := ExtractEntities(found);
      r := IntentResult(bestIntent, bestConfidence, entities, language);
    }

    /** `_extract_entities` for the given matches. */
    method ExtractEntities(found: Found) returns (entities: seq<Entity>)
      ensures entities == Entities(found)
    {
      entities := [];
      var i := 0;
      while i < |found.times|
        invariant 0 <= i <= |found.times|
        invariant entities == TimeEntities(found.times[..i])
      {
        entities := entities + [Entity("time", found.times[i])];
        i := i + 1;
      }
      assert found.times[..i] == found.times;
      var j := 0;
      while j < |found.numbers|
        invariant 0 <= j <= |found.numbers|
        invariant entities == WithNumbers(TimeEntities(found.times), found.numbers[..j])
      {
        var n := found.numbers[j];
        assert found.numbers[..j + 1][..j] == found.numbers[..j];
        if n !in Values(entities) {
          entities := entities + [Entity("number", n)];
        }
        j := j + 1;
      }
      assert found.numbers[..j] == found.numbers;
    }
  }
}
