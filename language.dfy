/** The interface's translation lookup: a language chosen at start-up (the
    stored choice, else English), a constant table of nested texts per
    language, and `t(key)`, which splits the key at dots, walks the current
    language's table one segment at a time and falls back to the key itself. */
module Language {
  import opened Wrappers
  import opened Decimal

  /** The JavaScript values a lookup can meet: nothing, a text, a number (only
      a text's `length`) or an object of named members. */
  datatype Value = Undefined | Str(s: string) | Num(n: int) | Obj(members: map<string, Value>)

  /** JavaScript truthiness of a value. */
  predicate IsTruthy(v: Value) {
    match v
    case Undefined => false
    case Str(s) => s != ""
    case Num(n) => n != 0
    case Obj(_) => true
  }

  /** `v?.[k]`: a member of an object; `length` or the character at a
      canonical index of a text; otherwise (and on nothing) nothing. */
  function Get(v: Value, k: string): (r: Value)
    ensures v.Undefined? ==> r == Undefined
    ensures v.Obj? ==> r == (if k in v.members then v.members[k] else Undefined)
  {
    match v
    case Undefined => Undefined
    case Obj(m) => if k in m then m[k] else Undefined
    case Num(_) => Undefined
    case Str(s) =>
      if k == "length" then Num(|s|)
      else if IsCanonicalIndex(k) && ParseDecimal(k) < |s| then Str([s[ParseDecimal(k)]])
      else Undefined
  }

  /** Indexing a text at a position gives the one-character text there. */
  lemma GetCharAt(s: string, i: nat)
    requires i < |s|
    ensures Get(Str(s), DecimalString(i)) == Str([s[i]])
  {
    PrintedIsCanonical(i);
    ParsePrinted(i);
    var k := DecimalString(i);
    assert k != "length" by {
      assert IsDigit(k[0]);
    }
  }

  // ---------------------------------------------------------------------------
  // `key.split('.')`

  /** The pieces of `s` between occurrences of `sep`, as `String.split` gives
      them: one more piece than there are separators, empty pieces kept. */
  function Split(s: string, sep: char): (parts: seq<string>)
    ensures |parts| >= 1
    decreases |s|
  {
    if s == [] then [""]
    else
      var rest := Split(s[1..], sep);
      if s[0] == sep then [""] + rest else [[s[0]] + rest[0]] + rest[1..]
  }

  /** The inverse of Split: the pieces with `sep` between them. */
  function Join(parts: seq<string>, sep: char): string
    requires |parts| >= 1
    decreases |parts|
  {
    if |parts| == 1 then parts[0] else parts[0] + [sep] + Join(parts[1..], sep)
  }

  /** Joining the pieces back gives the text that was split. */
  lemma {:induction false} JoinSplit(s: string, sep: char)
    ensures Join(Split(s, sep), sep) == s
    decreases |s|
  {
    if s != [] {
      var rest := Split(s[1..], sep);
      JoinSplit(s[1..], sep);
      if s[0] == sep {
        assert Split(s, sep)[1..] == rest;
      } else {
        var parts := Split(s, sep);
        assert parts[0] == [s[0]] + rest[0];
        if |rest| > 1 {
          assert parts[1..] == rest[1..];
          assert Join(rest, sep) == rest[0] + [sep] + Join(rest[1..], sep);
        }
        assert s == [s[0]] + s[1..];
      }
    }
  }

  /** No piece of a split contains the separator. */
  lemma {:induction false} SplitPiecesFree(s: string, sep: char)
    ensures forall i :: 0 <= i < |Split(s, sep)| ==> sep !in Split(s, sep)[i]
    decreases |s|
  {
    if s != [] {
      SplitPiecesFree(s[1..], sep);
    }
  }

  /** Splitting joined separator-free pieces gives the pieces back. */
  lemma {:induction false} SplitJoin(parts: seq<string>, sep: char)
    requires |parts| >= 1
    requires forall i :: 0 <= i < |parts| ==> sep !in parts[i]
    ensures Split(Join(parts, sep), sep) == parts
    decreases |parts|, |parts[0]|
  {
    var p := parts[0];
    if |parts| == 1 {
      SplitFree(p, sep);
    } else if p == [] {
      SplitJoin(parts[1..], sep);
      var s := Join(parts, sep);
      assert s == [sep] + Join(parts[1..], sep);
      assert s[1..] == Join(parts[1..], sep);
      assert parts == [""] + parts[1..];
    } else {
      var shorter := [p[1..]] + parts[1..];
      assert shorter[1..] == parts[1..];
      SplitJoin(shorter, sep);
      var s := Join(parts, sep);
      assert s == [p[0]] + Join(shorter, sep);
      assert s[1..] == Join(shorter, sep);
      assert p[0] != sep;
      assert p == [p[0]] + p[1..];
      assert parts == [p] + parts[1..];
    }
  }

  /** A text without the separator splits into itself alone. */
  lemma {:induction false} SplitFree(s: string, sep: char)
    requires sep !in s
    ensures Split(s, sep) == [s]
    decreases |s|
  {
    if s != [] {
      assert sep !in s[1..];
      SplitFree(s[1..], sep);
      assert s[0] != sep;
      assert s == [s[0]] + s[1..];
    }
  }

  // ---------------------------------------------------------------------------
  // The walk down the table

  /** The value reached from `v` by following `path`, one segment at a time,
      first segment first. */
  function Resolve(v: Value, path: seq<string>): Value
    decreases |path|
  {
    if path == [] then v else Resolve(Get(v, path[0]), path[1..])
  }

  /** Following a path one more segment is one more member access. */
  lemma {:induction false} ResolveSnoc(v: Value, path: seq<string>, k: string)
    ensures Resolve(v, path + [k]) == Get(Resolve(v, path), k)
    decreases |path|
  {
    if path == [] {
      assert path + [k] == [k];
    } else {
      assert (path + [k])[1..] == path[1..] + [k];
      ResolveSnoc(Get(v, path[0]), path[1..], k);
    }
  }

  /** Once the walk reaches nothing it stays there. */
  lemma {:induction false} ResolveUndefined(path: seq<string>)
    ensures Resolve(Undefined, path) == Undefined
    decreases |path|
  {
    if path != [] {
      ResolveUndefined(path[1..]);
    }
  }

  /** Following `p` and then `q` is following `p + q`. */
  lemma {:induction false} ResolveAppend(v: Value, p: seq<string>, q: seq<string>)
    ensures Resolve(v, p + q) == Resolve(Resolve(v, p), q)
    decreases |p|
  {
    if p != [] {
      assert (p + q)[0] == p[0];
      assert (p + q)[1..] == p[1..] + q;
      ResolveAppend(Get(v, p[0]), p[1..], q);
    } else {
      assert p + q == q;
    }
  }

  /** What `t(key)` gives with `table` as the translations and `language` as
      the current language: the value at the key's path if it is truthy, else
      the key itself. */
  function Lookup(table: Value, language: string, key: string): Value {
    var value := Resolve(Get(table, language), Split(key, '.'));
    if IsTruthy(value) then value else Str(key)
  }

  /** A segment missing from an object on the way makes `t` return the key. */
  lemma MissingSegmentGivesKey(table: Value, language: string, key: string, i: nat)
    requires i < |Split(key, '.')|
    requires Resolve(Get(table, language), Split(key, '.')[..i]).Obj?
    requires Split(key, '.')[i] !in Resolve(Get(table, language), Split(key, '.')[..i]).members
    ensures Lookup(table, language, key) == Str(key)
  {
    var keys := Split(key, '.');
    var root := Get(table, language);
    assert keys == keys[..i] + [keys[i]] + keys[i + 1..];
    ResolveAppend(root, keys[..i] + [keys[i]], keys[i + 1..]);
    ResolveSnoc(root, keys[..i], keys[i]);
    ResolveUndefined(keys[i + 1..]);
  }

  /** A language with no table makes every key fall back to itself. */
  lemma UnknownLanguageGivesKey(table: Value, language: string, key: string)
    requires table.Obj? && language !in table.members
    ensures Lookup(table, language, key) == Str(key)
  {
    ResolveUndefined(Split(key, '.'));
  }

  /** A path ending at an empty text falls back to the key; one ending at a
      non-empty text gives that text; one ending at an object gives the
      object. */
  lemma LookupOutcomes(table: Value, language: string, path: seq<string>)
    requires |path| >= 1 && forall i :: 0 <= i < |path| ==> '.' !in path[i]
    ensures var key := Join(path, '.');
            var reached := Resolve(Get(table, language), path);
            && (reached == Str("") ==> Lookup(table, language, key) == Str(key))
            && (reached.Str? && reached.s != "" ==> Lookup(table, language, key) == reached)
            && (reached.Obj? ==> Lookup(table, language, key) == reached)
  {
    SplitJoin(path, '.');
  }

  // ---------------------------------------------------------------------------
  // The table and the provider's state

  /** The translations table, English and Hindi. */
  const Translations: Value := Obj(map["en" := English, "hi" := Hindi])

  const English: Value := Obj(map[
    "nav" := EnglishNav,
    "home" := EnglishHome,
    "knowledge" := EnglishKnowledge,
    "docs" := EnglishDocs,
    "test" := EnglishTest,
    "admin" := EnglishAdmin
  ])

  const EnglishNav: Value := Obj(map[
    "home" := Str("Home"),
    "knowledge" := Str("Knowledge Hub"),
    "docs" := Str("Developer Docs"),
    "test" := Str("Live Test"),
    "admin" := Str("Admin Dashboard")
  ])

  const EnglishHome: Value := Obj(map[
    "title" := Str("Rapid Capital Knowledge & Voice Platform"),
    "subtitle" := Str("AI-Powered Voice Agent for Customer Support"),
    "description" := Str("This platform serves as a knowledge center for Rapid Capital's AI voice calling agent, integrated with Retell.ai and n8n workflow automation."),
    "features" := EnglishHomeFeatures
  ])

  const EnglishHomeFeatures: Value := Obj(map[
    "title" := Str("Key Features"),
    "knowledge" := Str("Knowledge Hub"),
    "knowledgeDesc" := Str("Comprehensive documentation and guides"),
    "docs" := Str("Developer Documentation"),
    "docsDesc" := Str("API references and integration guides"),
    "test" := Str("Live Testing"),
    "testDesc" := Str("Test voice calls in real-time"),
    "admin" := Str("Admin Dashboard"),
    "adminDesc" := Str("Manage calls and monitor performance")
  ])

  const EnglishKnowledge: Value := Obj(map[
    "title" := Str("Knowledge Hub"),
    "overview" := Str("Overview"),
    "setup" := Str("Setup Guide"),
    "prompts" := Str("Prompt Templates"),
    "webhooks" := Str("Webhook Examples")
  ])

  const EnglishDocs: Value := Obj(map[
    "title" := Str("Developer Documentation"),
    "apis" := Str("API Endpoints"),
    "examples" := Str("Example Payloads")
  ])

  const EnglishTest: Value := Obj(map[
    "title" := Str("Live Test"),
    "startCall" := Str("Start Test Call"),
    "transcript" := Str("Conversation Transcript")
  ])

  const EnglishAdmin: Value := Obj(map[
    "title" := Str("Admin Dashboard"),
    "calls" := Str("Call Logs"),
    "status" := Str("Status"),
    "actions" := Str("Actions")
  ])

  const Hindi: Value := Obj(map[
    "nav" := HindiNav,
    "home" := HindiHome,
    "knowledge" := HindiKnowledge,
    "docs" := HindiDocs,
    "test" := HindiTest,
    "admin" := HindiAdmin
  ])

  const HindiNav: Value := Obj(map[
    "home" := Str("होम"),
    "knowledge" := Str("ज्ञान केंद्र"),
    "docs" := Str("डेवलपर दस्तावेज़"),
    "test" := Str("लाइव टेस्ट"),
    "admin" := Str("एडमिन डैशबोर्ड")
  ])

  const HindiHome: Value := Obj(map[
    "title" := Str("रैपिड कैपिटल ज्ञान और वॉइस प्लेटफॉर्म"),
    "subtitle" := Str("ग्राहक सहायता के लिए AI-संचालित वॉइस एजेंट"),
    "description" := Str("यह प्लेटफॉर्म रैपिड कैपिटल के AI वॉइस कॉलिंग एजेंट के लिए एक ज्ञान केंद्र के रूप में कार्य करता है, जो Retell.ai और n8n वर्कफ़्लो ऑटोमेशन के साथ एकीकृत है।"),
    "features" := HindiHomeFeatures
  ])

  const HindiHomeFeatures: Value := Obj(map[
    "title" := Str("मुख्य विशेषताएं"),
    "knowledge" := Str("ज्ञान केंद्र"),
    "knowledgeDesc" := Str("व्यापक दस्तावेज़ीकरण और गाइड"),
    "docs" := Str("डेवलपर दस्तावेज़ीकरण"),
    "docsDesc" := Str("API संदर्भ और एकीकरण गाइड"),
    "test" := Str("लाइव टेस्टिंग"),
    "testDesc" := Str("वास्तविक समय में वॉइस कॉल का परीक्षण करें"),
    "admin" := Str("एडमिन डैशबोर्ड"),
    "adminDesc" := Str("कॉल प्रबंधित करें और प्रदर्शन की निगरानी करें")
  ])

  const HindiKnowledge: Value := Obj(map[
    "title" := Str("ज्ञान केंद्र"),
    "overview" := Str("अवलोकन"),
    "setup" := Str("सेटअप गाइड"),
    "prompts" := Str("प्रॉम्प्ट टेम्प्लेट"),
    "webhooks" := Str("वेबहुक उदाहरण")
  ])

  const HindiDocs: Value := Obj(map[
    "title" := Str("डेवलपर दस्तावेज़ीकरण"),
    "apis" := Str("API एंडपॉइंट्स"),
    "examples" := Str("उदाहरण पेलोड")
  ])

  const HindiTest: Value := Obj(map[
    "title" := Str("लाइव टेस्ट"),
    "startCall" := Str("टेस्ट कॉल शुरू करें"),
    "transcript" := Str("बातचीत ट्रांसक्रिप्ट")
  ])

  const HindiAdmin: Value := Obj(map[
    "title" := Str("एडमिन डैशबोर्ड"),
    "calls" := Str("कॉल लॉग"),
    "status" := Str("स्थिति"),
    "actions" := Str("कार्रवाई")
  ])
  /** The language chosen at start-up: the stored choice if there is one,
      else English. */
  function InitialLanguage(stored: Field): (language: string)
    ensures Truthy(stored) ==> language == stored.value
    ensures !Truthy(stored) ==> language == "en"
  {
    OrElse(stored, "en")
  }

  /** The language provider: the current language, changed through
      `setLanguage`, and the lookup `t`. */
  class LanguageProvider {
    var language: string

    constructor (stored: Field)
      ensures language == InitialLanguage(stored)
    {
      language := InitialLanguage(stored);
    }

    method SetLanguage(l: string)
      modifies this
      ensures language == l
    {
      language := l;
    }

    /** `t(key)`. */
    method T(key: string) returns (r: Value)
      ensures r == Lookup(Translations, language, key)
    {
      var keys := Split(key, '.');
      var value := Get(Translations, language);
      for i := 0 to |keys|
        invariant value == Resolve(Get(Translations, language), keys[..i])
      {
        ResolveSnoc(Get(Translations, language), keys[..i], keys[i]);
        assert keys[..i + 1] == keys[..i] + [keys[i]];
        value := Get(value, keys[i]);
      }
      assert keys[..|keys|] == keys;
      r := if IsTruthy(value) then value else Str(key);
    }
  }

  /** The key "nav.home" splits into its two segments. */
  lemma SplitNavHome()
    ensures Split("nav.home", '.') == ["nav", "home"]
  {
    assert Join(["nav", "home"], '.') == "nav.home";
    SplitJoin(["nav", "home"], '.');
  }

  /** The path nav, home leads to "Home" in the English table and to "होम"
      in the Hindi one. */
  lemma NavHomePaths()
    ensures Resolve(Get(Translations, "en"), ["nav", "home"]) == Str("Home")
    ensures Resolve(Get(Translations, "hi"), ["nav", "home"]) == Str("होम")
  {
    assert Get(Translations, "en") == English by { }
    assert Get(Translations, "hi") == Hindi by { }
    assert Get(English, "nav") == EnglishNav;
    assert Get(Hindi, "nav") == HindiNav;
    assert Get(EnglishNav, "home") == Str("Home") by { }
    assert Get(HindiNav, "home") == Str("होम") by { }
  }

  /** `t('nav.home')` gives "Home" in English and "होम" in Hindi. */
  lemma NavHomeTranslated()
    ensures Lookup(Translations, "en", "nav.home") == Str("Home")
    ensures Lookup(Translations, "hi", "nav.home") == Str("होम")
  {
    SplitNavHome();
    NavHomePaths();
  }

  /** `t('nav')` names an inner node and gives that whole subtree, not the
      key. */
  lemma NavGivesSubtree()
    ensures Lookup(Translations, "en", "nav") == EnglishNav
  {
    assert Join(["nav"], '.') == "nav";
    SplitJoin(["nav"], '.');
    assert Get(Translations, "en") == English;
    assert Get(English, "nav") == EnglishNav;
    assert Resolve(EnglishNav, []) == EnglishNav;
    assert Resolve(English, ["nav"]) == EnglishNav;
  }
}
