/** The example sentences of `tests/test_basic.py`, on the model. For the
    NLU classifier, "hello how are you" is a greeting, "what is the weather
    today" is about the weather and "remind me to call mom" is a reminder. For
    the pipeline's keyword detector, "hello how are you" scores 2 for both
    GREETING and QUESTION and is a greeting.

    Each fact about a literal sentence is a lemma of its own: the set of its
    characters, that it has no capital letter, each pair of adjacent letters
    it lacks, each keyword it holds. The lemmas about keyword lists then work
    from those facts alone: a keyword is absent when it holds a character, or
    a pair of adjacent characters, that the sentence lacks. */
module Sentences {
  import opened Outcomes
  import Text
  import Nlu
  import PipelineIntent

  const Hello: string := "hello how are you"
  const Weather: string := "what is the weather today"
  const Reminder: string := "remind me to call mom"

  /** The characters of "hello how are you". */
  const HelloChars: set<char> := {' ', 'a', 'e', 'h', 'l', 'o', 'r', 'u', 'w', 'y'}
  /** The characters of "what is the weather today". */
  const WeatherChars: set<char> := {' ', 'a', 'd', 'e', 'h', 'i', 'o', 'r', 's', 't', 'w', 'y'}
  /** The characters of "remind me to call mom". */
  const ReminderChars: set<char> := {' ', 'a', 'c', 'd', 'e', 'i', 'l', 'm', 'n', 'o', 'r', 't'}

  // ------------------------------------------ facts about "hello how are you"

  lemma HelloCharsIn(t: string)
    requires t == Hello
    ensures Text.AllIn(t, HelloChars)
  {
  }

  lemma HelloLowercase(t: string)
    requires t == Hello
    ensures Text.Lower(t) == t
  {
    Text.LowerOfLowercase(t);
  }

  lemma HelloLacksEY(t: string)
    requires t == Hello
    ensures Text.NoPair(t, 'e', 'y')
  {
  }

  lemma HelloLacksUR(t: string)
    requires t == Hello
    ensures Text.NoPair(t, 'u', 'r')
  {
  }

  lemma HelloLacksYE(t: string)
    requires t == Hello
    ensures Text.NoPair(t, 'y', 'e')
  {
  }

  lemma HelloLacksWH(t: string)
    requires t == Hello
    ensures Text.NoPair(t, 'w', 'h')
  {
  }

  lemma HelloHoldsHello(t: string)
    requires t == Hello
    ensures Text.IsSubstring("hello", t)
  {
    Text.IsSubstringAt("hello", t, 0);
  }

  lemma HelloHoldsHowAreYou(t: string)
    requires t == Hello
    ensures Text.IsSubstring("how are you", t)
  {
    Text.IsSubstringAt("how are you", t, 6);
  }

  lemma HelloHoldsHow(t: string)
    requires t == Hello
    ensures Text.IsSubstring("how", t)
  {
    Text.IsSubstringAt("how", t, 6);
  }

  lemma HelloHoldsAreYou(t: string)
    requires t == Hello
    ensures Text.IsSubstring("are you", t)
  {
    Text.IsSubstringAt("are you", t, 10);
  }

  // ------------------------------------------ facts about "what is the weather today"

  lemma WeatherCharsIn(t: string)
    requires t == Weather
    ensures Text.AllIn(t, WeatherChars)
  {
  }

  lemma WeatherLowercase(t: string)
    requires t == Weather
    ensures Text.Lower(t) == t
  {
    Text.LowerOfLowercase(t);
  }

  lemma WeatherLacksHI(t: string)
    requires t == Weather
    ensures Text.NoPair(t, 'h', 'i')
  {
  }

  lemma WeatherLacksDO(t: string)
    requires t == Weather
    ensures Text.NoPair(t, 'd', 'o')
  {
  }

  lemma WeatherLacksAS(t: string)
    requires t == Weather
    ensures Text.NoPair(t, 'a', 's')
  {
  }

  lemma WeatherLacksSA(t: string)
    requires t == Weather
    ensures Text.NoPair(t, 's', 'a')
  {
  }

  lemma WeatherHoldsWeather(t: string)
    requires t == Weather
    ensures Text.IsSubstring("weather", t)
  {
    Text.IsSubstringAt("weather", t, 12);
  }

  // ------------------------------------------ facts about "remind me to call mom"

  lemma ReminderCharsIn(t: string)
    requires t == Reminder
    ensures Text.AllIn(t, ReminderChars)
  {
  }

  lemma ReminderLowercase(t: string)
    requires t == Reminder
    ensures Text.Lower(t) == t
  {
    Text.LowerOfLowercase(t);
  }

  lemma ReminderLacksRA(t: string)
    requires t == Reminder
    ensures Text.NoPair(t, 'r', 'a')
  {
  }

  lemma ReminderLacksTI(t: string)
    requires t == Reminder
    ensures Text.NoPair(t, 't', 'i')
  {
  }

  lemma ReminderLacksDE(t: string)
    requires t == Reminder
    ensures Text.NoPair(t, 'd', 'e')
  {
  }

  lemma ReminderLacksAC(t: string)
    requires t == Reminder
    ensures Text.NoPair(t, 'a', 'c')
  {
  }

  lemma ReminderLacksDO(t: string)
    requires t == Reminder
    ensures Text.NoPair(t, 'd', 'o')
  {
  }

  lemma ReminderLacksMA(t: string)
    requires t == Reminder
    ensures Text.NoPair(t, 'm', 'a')
  {
  }

  lemma ReminderHoldsRemind(t: string)
    requires t == Reminder
    ensures Text.IsSubstring("remind", t)
  {
    Text.IsSubstringAt("remind", t, 0);
  }

  // ------------------------------------------------------ NLU classifier

  lemma HelloNluHasGreeting(t: string)
    requires Text.IsSubstring("hello", t)
    ensures Nlu.Conf(Nlu.Intents[0].1, t) != 0.0
  {
    var kws := Nlu.Intents[0].1;
    assert kws == ["hello", "hi", "namaste", "vanakkam", "namaskar"];
    assert Text.IsSubstring(kws[0], t);
    Nlu.ConfSpec(kws, t);
  }

  lemma HelloNluNoFarewell(t: string)
    requires Text.AllIn(t, HelloChars)
    ensures Nlu.Conf(Nlu.Intents[1].1, t) == 0.0
  {
    var kws := Nlu.Intents[1].1;
    assert kws == ["bye", "goodbye", "see you", "alvida"];
    Text.LacksCharOf("bye", t, HelloChars, 'b');
    Text.LacksCharOf("goodbye", t, HelloChars, 'g');
    Text.LacksCharOf("see you", t, HelloChars, 's');
    Text.LacksCharOf("alvida", t, HelloChars, 'v');
    Nlu.ConfSpec(kws, t);
  }

  lemma HelloNluNoWeather(t: string)
    requires Text.AllIn(t, HelloChars)
    ensures Nlu.Conf(Nlu.Intents[2].1, t) == 0.0
  {
    var kws := Nlu.Intents[2].1;
    assert kws == ["weather", "temperature", "rain", "mausam"];
    Text.LacksCharOf("weather", t, HelloChars, 't');
    Text.LacksCharOf("temperature", t, HelloChars, 't');
    Text.LacksCharOf("rain", t, HelloChars, 'i');
    Text.LacksCharOf("mausam", t, HelloChars, 'm');
    Nlu.ConfSpec(kws, t);
  }

  lemma HelloNluNoTime(t: string)
    requires Text.AllIn(t, HelloChars)
    ensures Nlu.Conf(Nlu.Intents[3].1, t) == 0.0
  {
    var kws := Nlu.Intents[3].1;
    assert kws == ["time", "samay", "clock", "what time"];
    Text.LacksCharOf("time", t, HelloChars, 't');
    Text.LacksCharOf("samay", t, HelloChars, 's');
    Text.LacksCharOf("clock", t, HelloChars, 'c');
    Text.LacksCharOf("what time", t, HelloChars, 't');
    Nlu.ConfSpec(kws, t);
  }

  lemma HelloNluNoReminder(t: string)
    requires Text.AllIn(t, HelloChars)
    ensures Nlu.Conf(Nlu.Intents[4].1, t) == 0.0
  {
    var kws := Nlu.Intents[4].1;
    assert kws == ["remind", "reminder", "yaad dilao", "schedule"];
    Text.LacksCharOf("remind", t, HelloChars, 'm');
    Text.LacksCharOf("reminder", t, HelloChars, 'm');
    Text.LacksCharOf("yaad dilao", t, HelloChars, 'd');
    Text.LacksCharOf("schedule", t, HelloChars, 's');
    Nlu.ConfSpec(kws, t);
  }

  lemma HelloNluNoSearch(t: string)
    requires Text.AllIn(t, HelloChars)
    ensures Nlu.Conf(Nlu.Intents[5].1, t) == 0.0
  {
    var kws := Nlu.Intents[5].1;
    assert kws == ["search", "find", "look for", "dhundho"];
    Text.LacksCharOf("search", t, HelloChars, 's');
    Text.LacksCharOf("find", t, HelloChars, 'f');
    Text.LacksCharOf("look for", t, HelloChars, 'k');
    Text.LacksCharOf("dhundho", t, HelloChars, 'd');
    Nlu.ConfSpec(kws, t);
  }

  lemma HelloNluNoMusic(t: string)
    requires Text.AllIn(t, HelloChars)
    ensures Nlu.Conf(Nlu.Intents[6].1, t) == 0.0
  {
    var kws := Nlu.Intents[6].1;
    assert kws == ["play", "music", "song", "gaana"];
    Text.LacksCharOf("play", t, HelloChars, 'p');
    Text.LacksCharOf("music", t, HelloChars, 'm');
    Text.LacksCharOf("song", t, HelloChars, 's');
    Text.LacksCharOf("gaana", t, HelloChars, 'g');
    Nlu.ConfSpec(kws, t);
  }

  lemma HelloNluNoSmartHome(t: string)
    requires Text.AllIn(t, HelloChars)
    ensures Nlu.Conf(Nlu.Intents[7].1, t) == 0.0
  {
    var kws := Nlu.Intents[7].1;
    assert kws == ["light", "fan", "ac", "door", "turn on", "turn off"];
    Text.LacksCharOf("light", t, HelloChars, 'i');
    Text.LacksCharOf("fan", t, HelloChars, 'f');
    Text.LacksCharOf("ac", t, HelloChars, 'c');
    Text.LacksCharOf("door", t, HelloChars, 'd');
    Text.LacksCharOf("turn on", t, HelloChars, 't');
    Text.LacksCharOf("turn off", t, HelloChars, 't');
    Nlu.ConfSpec(kws, t);
  }

  lemma HelloNluNoHelp(t: string)
    requires Text.AllIn(t, HelloChars)
    ensures Nlu.Conf(Nlu.Intents[8].1, t) == 0.0
  {
    var kws := Nlu.Intents[8].1;
    assert kws == ["help", "madad", "assist", "sahayata"];
    Text.LacksCharOf("help", t, HelloChars, 'p');
    Text.LacksCharOf("madad", t, HelloChars, 'm');
    Text.LacksCharOf("assist", t, HelloChars, 's');
    Text.LacksCharOf("sahayata", t, HelloChars, 's');
    Nlu.ConfSpec(kws, t);
  }

  lemma HelloClassified(t: string, found: Nlu.Found, language: string)
    requires Text.AllIn(t, HelloChars) && Text.Lower(t) == t
    requires Text.NoPair(t, 'e', 'y')
    requires Text.NoPair(t, 'u', 'r')
    requires Text.NoPair(t, 'y', 'e')
    requires Text.NoPair(t, 'w', 'h')
    requires Text.IsSubstring("hello", t)
    requires Text.IsSubstring("how are you", t)
    requires Text.IsSubstring("how", t)
    requires Text.IsSubstring("are you", t)
    ensures Nlu.KeywordResult(Text.Lower(t), language, found).intent == "greeting"
  {
    HelloNluHasGreeting(t);
    HelloNluNoFarewell(t);
    HelloNluNoWeather(t);
    HelloNluNoTime(t);
    HelloNluNoReminder(t);
    HelloNluNoSearch(t);
    HelloNluNoMusic(t);
    HelloNluNoSmartHome(t);
    HelloNluNoHelp(t);
    assert |Nlu.Intents| == 9;
    forall i | 0 <= i < |Nlu.Intents| && i != 0
      ensures Nlu.Conf(Nlu.Intents[i].1, t) == 0.0
    {
      assert i in {1, 2, 3, 4, 5, 6, 7, 8};
    }
    Nlu.SoleLeader(t, language, found, 0);
  }

  /** `classify("hello how are you")` reports "greeting": its keywords are the
      only ones of the table that the sentence holds. */
  lemma ClassifyHello(text: string, found: Nlu.Found, language: string)
    requires text == Hello
    ensures Nlu.KeywordResult(Text.Lower(text), language, found).intent == "greeting"
  {
    HelloCharsIn(text);
    HelloLowercase(text);
    HelloLacksEY(text);
    HelloLacksUR(text);
    HelloLacksYE(text);
    HelloLacksWH(text);
    HelloHoldsHello(text);
    HelloHoldsHowAreYou(text);
    HelloHoldsHow(text);
    HelloHoldsAreYou(text);
    HelloClassified(text, found, language);
  }

  lemma WeatherNluNoGreeting(t: string)
    requires Text.AllIn(t, WeatherChars)
    requires Text.NoPair(t, 'h', 'i')
    ensures Nlu.Conf(Nlu.Intents[0].1, t) == 0.0
  {
    var kws := Nlu.Intents[0].1;
    assert kws == ["hello", "hi", "namaste", "vanakkam", "namaskar"];
    Text.LacksCharOf("hello", t, WeatherChars, 'l');
    Text.LacksPair("hi", t, 0);
    Text.LacksCharOf("namaste", t, WeatherChars, 'n');
    Text.LacksCharOf("vanakkam", t, WeatherChars, 'v');
    Text.LacksCharOf("namaskar", t, WeatherChars, 'n');
    Nlu.ConfSpec(kws, t);
  }

  lemma WeatherNluNoFarewell(t: string)
    requires Text.AllIn(t, WeatherChars)
    ensures Nlu.Conf(Nlu.Intents[1].1, t) == 0.0
  {
    var kws := Nlu.Intents[1].1;
    assert kws == ["bye", "goodbye", "see you", "alvida"];
    Text.LacksCharOf("bye", t, WeatherChars, 'b');
    Text.LacksCharOf("goodbye", t, WeatherChars, 'g');
    Text.LacksCharOf("see you", t, WeatherChars, 'u');
    Text.LacksCharOf("alvida", t, WeatherChars, 'l');
    Nlu.ConfSpec(kws, t);
  }

  lemma WeatherNluHasWeather(t: string)
    requires Text.IsSubstring("weather", t)
    ensures Nlu.Conf(Nlu.Intents[2].1, t) != 0.0
  {
    var kws := Nlu.Intents[2].1;
    assert kws == ["weather", "temperature", "rain", "mausam"];
    assert Text.IsSubstring(kws[0], t);
    Nlu.ConfSpec(kws, t);
  }

  lemma WeatherNluNoTime(t: string)
    requires Text.AllIn(t, WeatherChars)
    ensures Nlu.Conf(Nlu.Intents[3].1, t) == 0.0
  {
    var kws := Nlu.Intents[3].1;
    assert kws == ["time", "samay", "clock", "what time"];
    Text.LacksCharOf("time", t, WeatherChars, 'm');
    Text.LacksCharOf("samay", t, WeatherChars, 'm');
    Text.LacksCharOf("clock", t, WeatherChars, 'c');
    Text.LacksCharOf("what time", t, WeatherChars, 'm');
    Nlu.ConfSpec(kws, t);
  }

  lemma WeatherNluNoReminder(t: string)
    requires Text.AllIn(t, WeatherChars)
    ensures Nlu.Conf(Nlu.Intents[4].1, t) == 0.0
  {
    var kws := Nlu.Intents[4].1;
    assert kws == ["remind", "reminder", "yaad dilao", "schedule"];
    Text.LacksCharOf("remind", t, WeatherChars, 'm');
    Text.LacksCharOf("reminder", t, WeatherChars, 'm');
    Text.LacksCharOf("yaad dilao", t, WeatherChars, 'l');
    Text.LacksCharOf("schedule", t, WeatherChars, 'c');
    Nlu.ConfSpec(kws, t);
  }

  lemma WeatherNluNoSearch(t: string)
    requires Text.AllIn(t, WeatherChars)
    ensures Nlu.Conf(Nlu.Intents[5].1, t) == 0.0
  {
    var kws := Nlu.Intents[5].1;
    assert kws == ["search", "find", "look for", "dhundho"];
    Text.LacksCharOf("search", t, WeatherChars, 'c');
    Text.LacksCharOf("find", t, WeatherChars, 'f');
    Text.LacksCharOf("look for", t, WeatherChars, 'l');
    Text.LacksCharOf("dhundho", t, WeatherChars, 'u');
    Nlu.ConfSpec(kws, t);
  }

  lemma WeatherNluNoMusic(t: string)
    requires Text.AllIn(t, WeatherChars)
    ensures Nlu.Conf(Nlu.Intents[6].1, t) == 0.0
  {
    var kws := Nlu.Intents[6].1;
    assert kws == ["play", "music", "song", "gaana"];
    Text.LacksCharOf("play", t, WeatherChars, 'p');
    Text.LacksCharOf("music", t, WeatherChars, 'm');
    Text.LacksCharOf("song", t, WeatherChars, 'n');
    Text.LacksCharOf("gaana", t, WeatherChars, 'g');
    Nlu.ConfSpec(kws, t);
  }

  lemma WeatherNluNoSmartHome(t: string)
    requires Text.AllIn(t, WeatherChars)
    requires Text.NoPair(t, 'd', 'o')
    ensures Nlu.Conf(Nlu.Intents[7].1, t) == 0.0
  {
    var kws := Nlu.Intents[7].1;
    assert kws == ["light", "fan", "ac", "door", "turn on", "turn off"];
    Text.LacksCharOf("light", t, WeatherChars, 'l');
    Text.LacksCharOf("fan", t, WeatherChars, 'f');
    Text.LacksCharOf("ac", t, WeatherChars, 'c');
    Text.LacksPair("door", t, 0);
    Text.LacksCharOf("turn on", t, WeatherChars, 'u');
    Text.LacksCharOf("turn off", t, WeatherChars, 'u');
    Nlu.ConfSpec(kws, t);
  }

  lemma WeatherNluNoHelp(t: string)
    requires Text.AllIn(t, WeatherChars)
    requires Text.NoPair(t, 'a', 's')
    requires Text.NoPair(t, 's', 'a')
    ensures Nlu.Conf(Nlu.Intents[8].1, t) == 0.0
  {
    var kws := Nlu.Intents[8].1;
    assert kws == ["help", "madad", "assist", "sahayata"];
    Text.LacksCharOf("help", t, WeatherChars, 'l');
    Text.LacksCharOf("madad", t, WeatherChars, 'm');
    Text.LacksPair("assist", t, 0);
    Text.LacksPair("sahayata", t, 0);
    Nlu.ConfSpec(kws, t);
  }

  lemma WeatherClassified(t: string, found: Nlu.Found, language: string)
    requires Text.AllIn(t, WeatherChars) && Text.Lower(t) == t
    requires Text.NoPair(t, 'h', 'i')
    requires Text.NoPair(t, 'd', 'o')
    requires Text.NoPair(t, 'a', 's')
    requires Text.NoPair(t, 's', 'a')
    requires Text.IsSubstring("weather", t)
    ensures Nlu.KeywordResult(Text.Lower(t), language, found).intent == "weather"
  {
    WeatherNluNoGreeting(t);
    WeatherNluNoFarewell(t);
    WeatherNluHasWeather(t);
    WeatherNluNoTime(t);
    WeatherNluNoReminder(t);
    WeatherNluNoSearch(t);
    WeatherNluNoMusic(t);
    WeatherNluNoSmartHome(t);
    WeatherNluNoHelp(t);
    assert |Nlu.Intents| == 9;
    forall i | 0 <= i < |Nlu.Intents| && i != 2
      ensures Nlu.Conf(Nlu.Intents[i].1, t) == 0.0
    {
      assert i in {0, 1, 3, 4, 5, 6, 7, 8};
    }
    Nlu.SoleLeader(t, language, found, 2);
  }

  /** `classify("what is the weather today")` reports "weather": its keywords are the
      only ones of the table that the sentence holds. */
  lemma ClassifyWeather(text: string, found: Nlu.Found, language: string)
    requires text == Weather
    ensures Nlu.KeywordResult(Text.Lower(text), language, found).intent == "weather"
  {
    WeatherCharsIn(text);
    WeatherLowercase(text);
    WeatherLacksHI(text);
    WeatherLacksDO(text);
    WeatherLacksAS(text);
    WeatherLacksSA(text);
    WeatherHoldsWeather(text);
    WeatherClassified(text, found, language);
  }

  lemma ReminderNluNoGreeting(t: string)
    requires Text.AllIn(t, ReminderChars)
    ensures Nlu.Conf(Nlu.Intents[0].1, t) == 0.0
  {
    var kws := Nlu.Intents[0].1;
    assert kws == ["hello", "hi", "namaste", "vanakkam", "namaskar"];
    Text.LacksCharOf("hello", t, ReminderChars, 'h');
    Text.LacksCharOf("hi", t, ReminderChars, 'h');
    Text.LacksCharOf("namaste", t, ReminderChars, 's');
    Text.LacksCharOf("vanakkam", t, ReminderChars, 'v');
    Text.LacksCharOf("namaskar", t, ReminderChars, 's');
    Nlu.ConfSpec(kws, t);
  }

  lemma ReminderNluNoFarewell(t: string)
    requires Text.AllIn(t, ReminderChars)
    ensures Nlu.Conf(Nlu.Intents[1].1, t) == 0.0
  {
    var kws := Nlu.Intents[1].1;
    assert kws == ["bye", "goodbye", "see you", "alvida"];
    Text.LacksCharOf("bye", t, ReminderChars, 'b');
    Text.LacksCharOf("goodbye", t, ReminderChars, 'g');
    Text.LacksCharOf("see you", t, ReminderChars, 's');
    Text.LacksCharOf("alvida", t, ReminderChars, 'v');
    Nlu.ConfSpec(kws, t);
  }

  lemma ReminderNluNoWeather(t: string)
    requires Text.AllIn(t, ReminderChars)
    requires Text.NoPair(t, 'r', 'a')
    ensures Nlu.Conf(Nlu.Intents[2].1, t) == 0.0
  {
    var kws := Nlu.Intents[2].1;
    assert kws == ["weather", "temperature", "rain", "mausam"];
    Text.LacksCharOf("weather", t, ReminderChars, 'w');
    Text.LacksCharOf("temperature", t, ReminderChars, 'p');
    Text.LacksPair("rain", t, 0);
    Text.LacksCharOf("mausam", t, ReminderChars, 'u');
    Nlu.ConfSpec(kws, t);
  }

  lemma ReminderNluNoTime(t: string)
    requires Text.AllIn(t, ReminderChars)
    requires Text.NoPair(t, 't', 'i')
    ensures Nlu.Conf(Nlu.Intents[3].1, t) == 0.0
  {
    var kws := Nlu.Intents[3].1;
    assert kws == ["time", "samay", "clock", "what time"];
    Text.LacksPair("time", t, 0);
    Text.LacksCharOf("samay", t, ReminderChars, 's');
    Text.LacksCharOf("clock", t, ReminderChars, 'k');
    Text.LacksCharOf("what time", t, ReminderChars, 'w');
    Nlu.ConfSpec(kws, t);
  }

  lemma ReminderNluHasReminder(t: string)
    requires Text.IsSubstring("remind", t)
    ensures Nlu.Conf(Nlu.Intents[4].1, t) != 0.0
  {
    var kws := Nlu.Intents[4].1;
    assert kws == ["remind", "reminder", "yaad dilao", "schedule"];
    assert Text.IsSubstring(kws[0], t);
    Nlu.ConfSpec(kws, t);
  }

  lemma ReminderNluNoSearch(t: string)
    requires Text.AllIn(t, ReminderChars)
    ensures Nlu.Conf(Nlu.Intents[5].1, t) == 0.0
  {
    var kws := Nlu.Intents[5].1;
    assert kws == ["search", "find", "look for", "dhundho"];
    Text.LacksCharOf("search", t, ReminderChars, 's');
    Text.LacksCharOf("find", t, ReminderChars, 'f');
    Text.LacksCharOf("look for", t, ReminderChars, 'k');
    Text.LacksCharOf("dhundho", t, ReminderChars, 'h');
    Nlu.ConfSpec(kws, t);
  }

  lemma ReminderNluNoMusic(t: string)
    requires Text.AllIn(t, ReminderChars)
    ensures Nlu.Conf(Nlu.Intents[6].1, t) == 0.0
  {
    var kws := Nlu.Intents[6].1;
    assert kws == ["play", "music", "song", "gaana"];
    Text.LacksCharOf("play", t, ReminderChars, 'p');
    Text.LacksCharOf("music", t, ReminderChars, 'u');
    Text.LacksCharOf("song", t, ReminderChars, 's');
    Text.LacksCharOf("gaana", t, ReminderChars, 'g');
    Nlu.ConfSpec(kws, t);
  }

  lemma ReminderNluNoSmartHome(t: string)
    requires Text.AllIn(t, ReminderChars)
    requires Text.NoPair(t, 'a', 'c')
    requires Text.NoPair(t, 'd', 'o')
    ensures Nlu.Conf(Nlu.Intents[7].1, t) == 0.0
  {
    var kws := Nlu.Intents[7].1;
    assert kws == ["light", "fan", "ac", "door", "turn on", "turn off"];
    Text.LacksCharOf("light", t, ReminderChars, 'g');
    Text.LacksCharOf("fan", t, ReminderChars, 'f');
    Text.LacksPair("ac", t, 0);
    Text.LacksPair("door", t, 0);
    Text.LacksCharOf("turn on", t, ReminderChars, 'u');
    Text.LacksCharOf("turn off", t, ReminderChars, 'u');
    Nlu.ConfSpec(kws, t);
  }

  lemma ReminderNluNoHelp(t: string)
    requires Text.AllIn(t, ReminderChars)
    requires Text.NoPair(t, 'm', 'a')
    ensures Nlu.Conf(Nlu.Intents[8].1, t) == 0.0
  {
    var kws := Nlu.Intents[8].1;
    assert kws == ["help", "madad", "assist", "sahayata"];
    Text.LacksCharOf("help", t, ReminderChars, 'h');
    Text.LacksPair("madad", t, 0);
    Text.LacksCharOf("assist", t, ReminderChars, 's');
    Text.LacksCharOf("sahayata", t, ReminderChars, 's');
    Nlu.ConfSpec(kws, t);
  }

  lemma ReminderClassified(t: string, found: Nlu.Found, language: string)
    requires Text.AllIn(t, ReminderChars) && Text.Lower(t) == t
    requires Text.NoPair(t, 'r', 'a')
    requires Text.NoPair(t, 't', 'i')
    requires Text.NoPair(t, 'd', 'e')
    requires Text.NoPair(t, 'a', 'c')
    requires Text.NoPair(t, 'd', 'o')
    requires Text.NoPair(t, 'm', 'a')
    requires Text.IsSubstring("remind", t)
    ensures Nlu.KeywordResult(Text.Lower(t), language, found).intent == "reminder"
  {
    ReminderNluNoGreeting(t);
    ReminderNluNoFarewell(t);
    ReminderNluNoWeather(t);
    ReminderNluNoTime(t);
    ReminderNluHasReminder(t);
    ReminderNluNoSearch(t);
    ReminderNluNoMusic(t);
    ReminderNluNoSmartHome(t);
    ReminderNluNoHelp(t);
    assert |Nlu.Intents| == 9;
    forall i | 0 <= i < |Nlu.Intents| && i != 4
      ensures Nlu.Conf(Nlu.Intents[i].1, t) == 0.0
    {
      assert i in {0, 1, 2, 3, 5, 6, 7, 8};
    }
    Nlu.SoleLeader(t, language, found, 4);
  }

  /** `classify("remind me to call mom")` reports "reminder": its keywords are the
      only ones of the table that the sentence holds. */
  lemma ClassifyReminder(text: string, found: Nlu.Found, language: string)
    requires text == Reminder
    ensures Nlu.KeywordResult(Text.Lower(text), language, found).intent == "reminder"
  {
    ReminderCharsIn(text);
    ReminderLowercase(text);
    ReminderLacksRA(text);
    ReminderLacksTI(text);
    ReminderLacksDE(text);
    ReminderLacksAC(text);
    ReminderLacksDO(text);
    ReminderLacksMA(text);
    ReminderHoldsRemind(text);
    ReminderClassified(text, found, language);
  }

  // ---------------------------------------------- pipeline keyword detector
  //
  // Steps of `KeywordHello`. Each `HelloPatternMiss…` lemma shows that one
  // run of a pattern's keywords does not occur in the sentence, from the
  // sentence's character set and missing pairs alone; each `HelloScore…`
  // lemma adds those runs up to that pattern's score.

  lemma HelloPatternMissGreeting1(t: string)
    requires Text.AllIn(t, HelloChars)
    requires Text.NoPair(t, 'e', 'y')
    ensures Text.CountOccurring(["hi", "hey", "good morning", "good evening"], t) == 0
  {
    var kws := ["hi", "hey", "good morning", "good evening"];
    Text.LacksCharOf("hi", t, HelloChars, 'i');
    Text.LacksPair("hey", t, 1);
    Text.LacksCharOf("good morning", t, HelloChars, 'g');
    Text.LacksCharOf("good evening", t, HelloChars, 'g');
    Text.CountOccurringSpec(kws, t);
  }

  lemma HelloPatternMissGreeting2(t: string)
    requires Text.AllIn(t, HelloChars)
    ensures Text.CountOccurring(["namaste"], t) == 0
  {
    var kws := ["namaste"];
    Text.LacksCharOf("namaste", t, HelloChars, 'n');
    Text.CountOccurringSpec(kws, t);
  }

  lemma HelloPatternMissGreeting3(t: string)
    requires Text.AllIn(t, HelloChars)
    ensures Text.CountOccurring(["what's up"], t) == 0
  {
    var kws := ["what's up"];
    Text.LacksCharOf("what's up", t, HelloChars, 't');
    Text.CountOccurringSpec(kws, t);
  }

  lemma HelloScoreGreeting(t: string)
    requires Text.AllIn(t, HelloChars)
    requires Text.NoPair(t, 'e', 'y')
    requires Text.IsSubstring("hello", t)
    requires Text.IsSubstring("how are you", t)
    ensures Text.CountOccurring(PipelineIntent.PatternKeywords[0], t) == 2
  {
    var kws := PipelineIntent.PatternKeywords[0];
    assert kws == ["hello", "hi", "hey", "good morning", "good evening", "namaste", "how are you", "what's up"];
    var p0 := ["hello"];
    var p1 := ["hi", "hey", "good morning", "good evening"];
    var p2 := ["namaste"];
    var p3 := ["how are you"];
    var p4 := ["what's up"];
    assert kws == p0 + p1 + p2 + p3 + p4;
    Text.CountOccurringAppend(p0 + p1 + p2 + p3, p4, t);
    Text.CountOccurringAppend(p0 + p1 + p2, p3, t);
    Text.CountOccurringAppend(p0 + p1, p2, t);
    Text.CountOccurringAppend(p0, p1, t);
    Text.CountOccurringSpec(p0, t);
    HelloPatternMissGreeting1(t);
    HelloPatternMissGreeting2(t);
    Text.CountOccurringSpec(p3, t);
    HelloPatternMissGreeting3(t);
  }

  lemma HelloPatternMissWeather1(t: string)
    requires Text.AllIn(t, HelloChars)
    ensures Text.CountOccurring(["weather", "temperature", "rain", "sunny"], t) == 0
  {
    var kws := ["weather", "temperature", "rain", "sunny"];
    Text.LacksCharOf("weather", t, HelloChars, 't');
    Text.LacksCharOf("temperature", t, HelloChars, 't');
    Text.LacksCharOf("rain", t, HelloChars, 'i');
    Text.LacksCharOf("sunny", t, HelloChars, 's');
    Text.CountOccurringSpec(kws, t);
  }

  lemma HelloPatternMissWeather2(t: string)
    requires Text.AllIn(t, HelloChars)
    ensures Text.CountOccurring(["cloudy", "forecast", "climate", "hot"], t) == 0
  {
    var kws := ["cloudy", "forecast", "climate", "hot"];
    Text.LacksCharOf("cloudy", t, HelloChars, 'c');
    Text.LacksCharOf("forecast", t, HelloChars, 'f');
    Text.LacksCharOf("climate", t, HelloChars, 'c');
    Text.LacksCharOf("hot", t, HelloChars, 't');
    Text.CountOccurringSpec(kws, t);
  }

  lemma HelloPatternMissWeather3(t: string)
    requires Text.AllIn(t, HelloChars)
    ensures Text.CountOccurring(["cold"], t) == 0
  {
    var kws := ["cold"];
    Text.LacksCharOf("cold", t, HelloChars, 'c');
    Text.CountOccurringSpec(kws, t);
  }

  lemma HelloScoreWeather(t: string)
    requires Text.AllIn(t, HelloChars)
    ensures Text.CountOccurring(PipelineIntent.PatternKeywords[1], t) == 0
  {
    var kws := PipelineIntent.PatternKeywords[1];
    assert kws == ["weather", "temperature", "rain", "sunny", "cloudy", "forecast", "climate", "hot", "cold"];
    var p0 := ["weather", "temperature", "rain", "sunny"];
    var p1 := ["cloudy", "forecast", "climate", "hot"];
    var p2 := ["cold"];
    assert kws == p0 + p1 + p2;
    Text.CountOccurringAppend(p0 + p1, p2, t);
    Text.CountOccurringAppend(p0, p1, t);
    HelloPatternMissWeather1(t);
    HelloPatternMissWeather2(t);
    HelloPatternMissWeather3(t);
  }

  lemma HelloPatternMissTime1(t: string)
    requires Text.AllIn(t, HelloChars)
    requires Text.NoPair(t, 'u', 'r')
    ensures Text.CountOccurring(["time", "what time", "clock", "hour"], t) == 0
  {
    var kws := ["time", "what time", "clock", "hour"];
    Text.LacksCharOf("time", t, HelloChars, 't');
    Text.LacksCharOf("what time", t, HelloChars, 't');
    Text.LacksCharOf("clock", t, HelloChars, 'c');
    Text.LacksPair("hour", t, 2);
    Text.CountOccurringSpec(kws, t);
  }

  lemma HelloPatternMissTime2(t: string)
    requires Text.AllIn(t, HelloChars)
    ensures Text.CountOccurring(["date", "today", "day", "month"], t) == 0
  {
    var kws := ["date", "today", "day", "month"];
    Text.LacksCharOf("date", t, HelloChars, 'd');
    Text.LacksCharOf("today", t, HelloChars, 't');
    Text.LacksCharOf("day", t, HelloChars, 'd');
    Text.LacksCharOf("month", t, HelloChars, 'm');
    Text.CountOccurringSpec(kws, t);
  }

  lemma HelloPatternMissTime3(t: string)
    requires Text.AllIn(t, HelloChars)
    requires Text.NoPair(t, 'y', 'e')
    ensures Text.CountOccurring(["year"], t) == 0
  {
    var kws := ["year"];
    Text.LacksPair("year", t, 0);
    Text.CountOccurringSpec(kws, t);
  }

  lemma HelloScoreTime(t: string)
    requires Text.AllIn(t, HelloChars)
    requires Text.NoPair(t, 'u', 'r')
    requires Text.NoPair(t, 'y', 'e')
    ensures Text.CountOccurring(PipelineIntent.PatternKeywords[2], t) == 0
  {
    var kws := PipelineIntent.PatternKeywords[2];
    assert kws == ["time", "what time", "clock", "hour", "date", "today", "day", "month", "year"];
    var p0 := ["time", "what time", "clock", "hour"];
    var p1 := ["date", "today", "day", "month"];
    var p2 := ["year"];
    assert kws == p0 + p1 + p2;
    Text.CountOccurringAppend(p0 + p1, p2, t);
    Text.CountOccurringAppend(p0, p1, t);
    HelloPatternMissTime1(t);
    HelloPatternMissTime2(t);
    HelloPatternMissTime3(t);
  }

  lemma HelloPatternMissReminder1(t: string)
    requires Text.AllIn(t, HelloChars)
    ensures Text.CountOccurring(["remind", "reminder", "alarm", "schedule"], t) == 0
  {
    var kws := ["remind", "reminder", "alarm", "schedule"];
    Text.LacksCharOf("remind", t, HelloChars, 'm');
    Text.LacksCharOf("reminder", t, HelloChars, 'm');
    Text.LacksCharOf("alarm", t, HelloChars, 'm');
    Text.LacksCharOf("schedule", t, HelloChars, 's');
    Text.CountOccurringSpec(kws, t);
  }

  lemma HelloPatternMissReminder2(t: string)
    requires Text.AllIn(t, HelloChars)
    ensures Text.CountOccurring(["appointment", "notify", "alert", "set reminder"], t) == 0
  {
    var kws := ["appointment", "notify", "alert", "set reminder"];
    Text.LacksCharOf("appointment", t, HelloChars, 'p');
    Text.LacksCharOf("notify", t, HelloChars, 'n');
    Text.LacksCharOf("alert", t, HelloChars, 't');
    Text.LacksCharOf("set reminder", t, HelloChars, 's');
    Text.CountOccurringSpec(kws, t);
  }

  lemma HelloScoreReminder(t: string)
    requires Text.AllIn(t, HelloChars)
    ensures Text.CountOccurring(PipelineIntent.PatternKeywords[3], t) == 0
  {
    var kws := PipelineIntent.PatternKeywords[3];
    assert kws == ["remind", "reminder", "alarm", "schedule", "appointment", "notify", "alert", "set reminder"];
    var p0 := ["remind", "reminder", "alarm", "schedule"];
    var p1 := ["appointment", "notify", "alert", "set reminder"];
    assert kws == p0 + p1;
    Text.CountOccurringAppend(p0, p1, t);
    HelloPatternMissReminder1(t);
    HelloPatternMissReminder2(t);
  }

  lemma HelloPatternMissCalculation1(t: string)
    requires Text.AllIn(t, HelloChars)
    ensures Text.CountOccurring(["calculate", "math", "plus", "minus"], t) == 0
  {
    var kws := ["calculate", "math", "plus", "minus"];
    Text.LacksCharOf("calculate", t, HelloChars, 'c');
    Text.LacksCharOf("math", t, HelloChars, 'm');
    Text.LacksCharOf("plus", t, HelloChars, 'p');
    Text.LacksCharOf("minus", t, HelloChars, 'm');
    Text.CountOccurringSpec(kws, t);
  }

  lemma HelloPatternMissCalculation2(t: string)
    requires Text.AllIn(t, HelloChars)
    ensures Text.CountOccurring(["multiply", "divide", "sum", "total"], t) == 0
  {
    var kws := ["multiply", "divide", "sum", "total"];
    Text.LacksCharOf("multiply", t, HelloChars, 'm');
    Text.LacksCharOf("divide", t, HelloChars, 'd');
    Text.LacksCharOf("sum", t, HelloChars, 's');
    Text.LacksCharOf("total", t, HelloChars, 't');
    Text.CountOccurringSpec(kws, t);
  }

  lemma HelloPatternMissCalculation3(t: string)
    requires Text.AllIn(t, HelloChars)
    ensures Text.CountOccurring(["percentage", "how much is"], t) == 0
  {
    var kws := ["percentage", "how much is"];
    Text.LacksCharOf("percentage", t, HelloChars, 'p');
    Text.LacksCharOf("how much is", t, HelloChars, 'm');
    Text.CountOccurringSpec(kws, t);
  }

  lemma HelloScoreCalculation(t: string)
    requires Text.AllIn(t, HelloChars)
    ensures Text.CountOccurring(PipelineIntent.PatternKeywords[4], t) == 0
  {
    var kws := PipelineIntent.PatternKeywords[4];
    assert kws == ["calculate", "math", "plus", "minus", "multiply", "divide", "sum", "total", "percentage", "how much is"];
    var p0 := ["calculate", "math", "plus", "minus"];
    var p1 := ["multiply", "divide", "sum", "total"];
    var p2 := ["percentage", "how much is"];
    assert kws == p0 + p1 + p2;
    Text.CountOccurringAppend(p0 + p1, p2, t);
    Text.CountOccurringAppend(p0, p1, t);
    HelloPatternMissCalculation1(t);
    HelloPatternMissCalculation2(t);
    HelloPatternMissCalculation3(t);
  }

  lemma HelloPatternMissQuestion1(t: string)
    requires Text.AllIn(t, HelloChars)
    requires Text.NoPair(t, 'w', 'h')
    ensures Text.CountOccurring(["what", "who", "where", "when"], t) == 0
  {
    var kws := ["what", "who", "where", "when"];
    Text.LacksCharOf("what", t, HelloChars, 't');
    Text.LacksPair("who", t, 0);
    Text.LacksPair("where", t, 0);
    Text.LacksCharOf("when", t, HelloChars, 'n');
    Text.CountOccurringSpec(kws, t);
  }

  lemma HelloPatternMissQuestion2(t: string)
    requires Text.AllIn(t, HelloChars)
    requires Text.NoPair(t, 'w', 'h')
    ensures Text.CountOccurring(["why"], t) == 0
  {
    var kws := ["why"];
    Text.LacksPair("why", t, 0);
    Text.CountOccurringSpec(kws, t);
  }

  lemma HelloPatternMissQuestion3(t: string)
    requires Text.AllIn(t, HelloChars)
    ensures Text.CountOccurring(["which", "is it"], t) == 0
  {
    var kws := ["which", "is it"];
    Text.LacksCharOf("which", t, HelloChars, 'i');
    Text.LacksCharOf("is it", t, HelloChars, 'i');
    Text.CountOccurringSpec(kws, t);
  }

  lemma HelloPatternMissQuestion4(t: string)
    requires Text.AllIn(t, HelloChars)
    ensures Text.CountOccurring(["can you", "could you", "tell me"], t) == 0
  {
    var kws := ["can you", "could you", "tell me"];
    Text.LacksCharOf("can you", t, HelloChars, 'c');
    Text.LacksCharOf("could you", t, HelloChars, 'c');
    Text.LacksCharOf("tell me", t, HelloChars, 't');
    Text.CountOccurringSpec(kws, t);
  }

  lemma HelloScoreQuestion(t: string)
    requires Text.AllIn(t, HelloChars)
    requires Text.NoPair(t, 'w', 'h')
    requires Text.IsSubstring("how", t)
    requires Text.IsSubstring("are you", t)
    ensures Text.CountOccurring(PipelineIntent.PatternKeywords[5], t) == 2
  {
    var kws := PipelineIntent.PatternKeywords[5];
    assert kws == ["what", "who", "where", "when", "why", "how", "which", "is it", "are you", "can you", "could you", "tell me"];
    var p0 := ["what", "who", "where", "when"];
    var p1 := ["why"];
    var p2 := ["how"];
    var p3 := ["which", "is it"];
    var p4 := ["are you"];
    var p5 := ["can you", "could you", "tell me"];
    assert kws == p0 + p1 + p2 + p3 + p4 + p5;
    Text.CountOccurringAppend(p0 + p1 + p2 + p3 + p4, p5, t);
    Text.CountOccurringAppend(p0 + p1 + p2 + p3, p4, t);
    Text.CountOccurringAppend(p0 + p1 + p2, p3, t);
    Text.CountOccurringAppend(p0 + p1, p2, t);
    Text.CountOccurringAppend(p0, p1, t);
    HelloPatternMissQuestion1(t);
    HelloPatternMissQuestion2(t);
    Text.CountOccurringSpec(p2, t);
    HelloPatternMissQuestion3(t);
    Text.CountOccurringSpec(p4, t);
    HelloPatternMissQuestion4(t);
  }

  lemma HelloPatternMissCommand1(t: string)
    requires Text.AllIn(t, HelloChars)
    ensures Text.CountOccurring(["turn on", "turn off", "switch", "open"], t) == 0
  {
    var kws := ["turn on", "turn off", "switch", "open"];
    Text.LacksCharOf("turn on", t, HelloChars, 't');
    Text.LacksCharOf("turn off", t, HelloChars, 't');
    Text.LacksCharOf("switch", t, HelloChars, 's');
    Text.LacksCharOf("open", t, HelloChars, 'p');
    Text.CountOccurringSpec(kws, t);
  }

  lemma HelloPatternMissCommand2(t: string)
    requires Text.AllIn(t, HelloChars)
    ensures Text.CountOccurring(["close", "start", "stop", "play"], t) == 0
  {
    var kws := ["close", "start", "stop", "play"];
    Text.LacksCharOf("close", t, HelloChars, 'c');
    Text.LacksCharOf("start", t, HelloChars, 's');
    Text.LacksCharOf("stop", t, HelloChars, 's');
    Text.LacksCharOf("play", t, HelloChars, 'p');
    Text.CountOccurringSpec(kws, t);
  }

  lemma HelloPatternMissCommand3(t: string)
    requires Text.AllIn(t, HelloChars)
    ensures Text.CountOccurring(["pause", "set"], t) == 0
  {
    var kws := ["pause", "set"];
    Text.LacksCharOf("pause", t, HelloChars, 'p');
    Text.LacksCharOf("set", t, HelloChars, 's');
    Text.CountOccurringSpec(kws, t);
  }

  lemma HelloScoreCommand(t: string)
    requires Text.AllIn(t, HelloChars)
    ensures Text.CountOccurring(PipelineIntent.PatternKeywords[6], t) == 0
  {
    var kws := PipelineIntent.PatternKeywords[6];
    assert kws == ["turn on", "turn off", "switch", "open", "close", "start", "stop", "play", "pause", "set"];
    var p0 := ["turn on", "turn off", "switch", "open"];
    var p1 := ["close", "start", "stop", "play"];
    var p2 := ["pause", "set"];
    assert kws == p0 + p1 + p2;
    Text.CountOccurringAppend(p0 + p1, p2, t);
    Text.CountOccurringAppend(p0, p1, t);
    HelloPatternMissCommand1(t);
    HelloPatternMissCommand2(t);
    HelloPatternMissCommand3(t);
  }

  /** The score table of a text with these keyword counts. */
  lemma HelloScoreTable(t: string)
    requires Text.CountOccurring(PipelineIntent.PatternKeywords[0], t) == 2
    requires Text.CountOccurring(PipelineIntent.PatternKeywords[1], t) == 0
    requires Text.CountOccurring(PipelineIntent.PatternKeywords[2], t) == 0
    requires Text.CountOccurring(PipelineIntent.PatternKeywords[3], t) == 0
    requires Text.CountOccurring(PipelineIntent.PatternKeywords[4], t) == 0
    requires Text.CountOccurring(PipelineIntent.PatternKeywords[5], t) == 2
    requires Text.CountOccurring(PipelineIntent.PatternKeywords[6], t) == 0
    ensures PipelineIntent.ScoreTable(t) == [(PipelineIntent.Greeting, 2), (PipelineIntent.Weather, 0), (PipelineIntent.Time, 0), (PipelineIntent.Reminder, 0), (PipelineIntent.Calculation, 0), (PipelineIntent.Question, 2), (PipelineIntent.Command, 0)]
  {
  }

  lemma HelloDetected(t: string)
    requires Text.AllIn(t, HelloChars) && Text.Lower(t) == t
    requires Text.NoPair(t, 'e', 'y')
    requires Text.NoPair(t, 'u', 'r')
    requires Text.NoPair(t, 'y', 'e')
    requires Text.NoPair(t, 'w', 'h')
    requires Text.IsSubstring("hello", t)
    requires Text.IsSubstring("how are you", t)
    requires Text.IsSubstring("how", t)
    requires Text.IsSubstring("are you", t)
    ensures PipelineIntent.ScoreTable(Text.Lower(t))[0].1 == 2
    ensures PipelineIntent.ScoreTable(Text.Lower(t))[5].1 == 2
    ensures PipelineIntent.KeywordIntent(t) == Some(PipelineIntent.Greeting)
  {
    HelloScoreGreeting(t);
    HelloScoreWeather(t);
    HelloScoreTime(t);
    HelloScoreReminder(t);
    HelloScoreCalculation(t);
    HelloScoreQuestion(t);
    HelloScoreCommand(t);
    HelloScoreTable(t);
    PipelineIntent.TieGoesToEarliest();
  }

  /** `_keyword_detect("hello how are you")` returns GREETING: GREETING and
      QUESTION both score 2, and the tie goes to the earlier category. */
  lemma KeywordHello(text: string)
    requires text == Hello
    ensures PipelineIntent.ScoreTable(Text.Lower(text))[0].1 == 2
    ensures PipelineIntent.ScoreTable(Text.Lower(text))[5].1 == 2
    ensures PipelineIntent.KeywordIntent(text) == Some(PipelineIntent.Greeting)
  {
    HelloCharsIn(text);
    HelloLowercase(text);
    HelloLacksEY(text);
    HelloLacksUR(text);
    HelloLacksYE(text);
    HelloLacksWH(text);
    HelloHoldsHello(text);
    HelloHoldsHowAreYou(text);
    HelloHoldsHow(text);
    HelloHoldsAreYou(text);
    HelloDetected(text);
  }
}
