/** test_api_keys of test_providers.py: which of the three vendor keys are
    configured, how a configured key is shown masked, and the verdict. The
    console output is left out; what it reports is returned instead. */
module KeyCheck {
  import opened Config
  import Router

  /** The placeholder values the script treats as "not configured", for any
      of the three vendors. */
  const Placeholders := ["your_groq_api_key_here", "your_together_api_key_here", "your_huggingface_api_key_here"]

  /** One entry of the script's `providers` dict: a vendor name and the
      value of its key variable. */
  datatype KeyEntry = KeyEntry(name: string, key: Option<string>)

  /** The `providers` dict, in insertion order. */
  function KeyTable(env: Env): (t: seq<KeyEntry>)
    ensures |t| == 3
    ensures t[0].name == "Groq" && t[1].name == "Hugging Face" && t[2].name == "Gemini"
    ensures t[0].key == Getenv(env, "GROQ_API_KEY")
    ensures t[1].key == Getenv(env, "HUGGINGFACE_API_KEY")
    ensures t[2].key == Getenv(env, "GEMINI_API_KEY")
  {
    [
      KeyEntry("Groq", Getenv(env, "GROQ_API_KEY")),
      KeyEntry("Hugging Face", Getenv(env, "HUGGINGFACE_API_KEY")),
      KeyEntry("Gemini", Getenv(env, "GEMINI_API_KEY"))
    ]
  }

  /** The script's test: the key is set, non-empty and not a placeholder. */
  predicate IsConfigured(key: Option<string>)
    ensures IsConfigured(key) <==>
      key.Some? && key.value != "" &&
      key.value != "your_groq_api_key_here" &&
      key.value != "your_together_api_key_here" &&
      key.value != "your_huggingface_api_key_here"
  {
    Truthy(key) && key.value !in Placeholders
  }

  /** `key[:8] + "..." + key[-4:]` for keys longer than 12, else "***": at
      most the first eight and the last four characters are ever shown. */
  function Mask(key: string): (m: string)
    ensures |m| == 15 || |m| == 3
    ensures |key| > 12 ==> |m| == 15 && m[..8] == key[..8] && m[8..11] == "..." && m[11..] == key[|key| - 4..]
    ensures |key| <= 12 ==> m == "***"
  {
    if |key| > 12 then key[..8] + "..." + key[|key| - 4..] else "***"
  }

  /** Names of the configured entries, in table order. */
  function ConfiguredNames(entries: seq<KeyEntry>): seq<string>
  {
    if entries == [] then []
    else
      var last := entries[|entries| - 1];
      ConfiguredNames(entries[..|entries| - 1]) + (if IsConfigured(last.key) then [last.name] else [])
  }

  /** Names of the entries that are not configured, in table order. */
  function MissingNames(entries: seq<KeyEntry>): seq<string>
  {
    if entries == [] then []
    else
      var last := entries[|entries| - 1];
      MissingNames(entries[..|entries| - 1]) + (if IsConfigured(last.key) then [] else [last.name])
  }

  /** The masked keys shown for the configured entries, in table order. */
  function MaskedKeys(entries: seq<KeyEntry>): seq<string>
  {
    if entries == [] then []
    else
      var last := entries[|entries| - 1];
      MaskedKeys(entries[..|entries| - 1]) + (if IsConfigured(last.key) then [Mask(last.key.value)] else [])
  }

  /** The closing message: a warning, a tip naming how many vendors and
      which are missing, or the all-configured message. */
  datatype Summary = NoneConfigured | Partial(moreNeeded: int, missing: seq<string>) | AllConfigured

  datatype KeyReport = KeyReport(
    configured: seq<string>,
    masked: seq<string>,
    missing: seq<string>,
    summary: Summary,
    passed: bool)

  /** test_api_keys. */
  method TestApiKeys(env: Env) returns (report: KeyReport)
    ensures report.configured == ConfiguredNames(KeyTable(env))
    ensures report.missing == MissingNames(KeyTable(env))
    ensures report.masked == MaskedKeys(KeyTable(env))
    ensures !report.passed <==> report.configured == []
    ensures report.summary.NoneConfigured? <==> report.configured == []
    ensures report.summary.AllConfigured? <==> |report.configured| == 3
    ensures report.summary.Partial? ==>
      report.summary.moreNeeded == 3 - |report.configured| && report.summary.missing == report.missing
  {
    var providers := KeyTable(env);
    var configured, masked, missing := [], [], [];
    for i := 0 to |providers|
      invariant configured == ConfiguredNames(providers[..i])
      invariant masked == MaskedKeys(providers[..i])
      invariant missing == MissingNames(providers[..i])
    {
      assert providers[..i + 1][..i] == providers[..i];
      var entry := providers[i];
      if IsConfigured(entry.key) {
        configured := configured + [entry.name];
        masked := masked + [Mask(entry.key.value)];
      } else {
        missing := missing + [entry.name];
      }
    }
    assert providers[..|providers|] == providers;
    Partition(providers);
    var summary: Summary;
    var passed: bool;
    if |configured| == 0 {
      summary, passed := NoneConfigured, false;
    } else if |configured| < 3 {
      summary, passed := Partial(3 - |configured|, missing), true;
    } else {
      summary, passed := AllConfigured, true;
    }
    return KeyReport(configured, masked, missing, summary, passed);
  }

  /** Each entry lands in exactly one of the two lists: configured names
      are those of configured entries, missing names those of the others,
      and one masked key is shown per configured name. */
  lemma {:induction false} Partition(entries: seq<KeyEntry>)
    ensures |ConfiguredNames(entries)| + |MissingNames(entries)| == |entries|
    ensures |MaskedKeys(entries)| == |ConfiguredNames(entries)|
    ensures forall n :: n in ConfiguredNames(entries) <==>
              exists i :: 0 <= i < |entries| && entries[i].name == n && IsConfigured(entries[i].key)
    ensures forall n :: n in MissingNames(entries) <==>
              exists i :: 0 <= i < |entries| && entries[i].name == n && !IsConfigured(entries[i].key)
  {
    if entries != [] {
      var init := entries[..|entries| - 1];
      Partition(init);
      assert forall i :: 0 <= i < |init| ==> init[i] == entries[i];
    }
  }

  /** The entry names, in table order. */
  function Names(entries: seq<KeyEntry>): (names: seq<string>)
    ensures |names| == |entries|
    ensures forall i :: 0 <= i < |entries| ==> names[i] == entries[i].name
  {
    seq(|entries|, i requires 0 <= i < |entries| => entries[i].name)
  }

  /** `a` is `b` with some elements left out, order kept. */
  predicate IsSubsequence(a: seq<string>, b: seq<string>)
    decreases |b|
  {
    if a == [] then true
    else if b == [] then false
    else
      (a[|a| - 1] == b[|b| - 1] && IsSubsequence(a[..|a| - 1], b[..|b| - 1]))
      || IsSubsequence(a, b[..|b| - 1])
  }

  /** Both lists keep the table order: each is the table's names with the
      other kind of entry left out. */
  lemma {:induction false} ListsKeepOrder(entries: seq<KeyEntry>)
    ensures IsSubsequence(ConfiguredNames(entries), Names(entries))
    ensures IsSubsequence(MissingNames(entries), Names(entries))
  {
    if entries != [] {
      var init := entries[..|entries| - 1];
      ListsKeepOrder(init);
      assert Names(entries)[..|entries| - 1] == Names(init);
      var c, m := ConfiguredNames(entries), MissingNames(entries);
      if IsConfigured(entries[|entries| - 1].key) {
        assert c[..|c| - 1] == ConfiguredNames(init);
        assert m == MissingNames(init);
        if m != [] {
          assert IsSubsequence(m, Names(entries)[..|entries| - 1]);
        }
      } else {
        assert m[..|m| - 1] == MissingNames(init);
        assert c == ConfiguredNames(init);
        if c != [] {
          assert IsSubsequence(c, Names(entries)[..|entries| - 1]);
        }
      }
    }
  }

  /** On the script's table the partition is strict: a name is configured
      exactly when it is not missing, and the tip asks for as many more
      vendors as are missing. */
  lemma KeyTablePartition(env: Env, name: string)
    requires name in ["Groq", "Hugging Face", "Gemini"]
    ensures name in ConfiguredNames(KeyTable(env)) <==> name !in MissingNames(KeyTable(env))
    ensures 3 - |ConfiguredNames(KeyTable(env))| == |MissingNames(KeyTable(env))|
  {
    var t := KeyTable(env);
    Partition(t);
    assert forall i, j :: 0 <= i < j < 3 ==> t[i].name != t[j].name by {
      assert |"Groq"| == 4 && |"Hugging Face"| == 12 && |"Gemini"| == 6;
    }
  }

  /** The test_api_keys verdict is False exactly when none of the three
      keys is configured. */
  lemma PassedIff(env: Env)
    ensures ConfiguredNames(KeyTable(env)) == [] <==>
      !IsConfigured(Getenv(env, "GROQ_API_KEY")) &&
      !IsConfigured(Getenv(env, "HUGGINGFACE_API_KEY")) &&
      !IsConfigured(Getenv(env, "GEMINI_API_KEY"))
  {
    var t := KeyTable(env);
    Partition(t);
    if ConfiguredNames(t) != [] {
      assert ConfiguredNames(t)[0] in ConfiguredNames(t);
    } else {
      assert t[0].name in ConfiguredNames(t) <==> IsConfigured(t[0].key);
      assert t[1].name in ConfiguredNames(t) <==> IsConfigured(t[1].key) by {
        assert |"Hugging Face"| != |"Groq"| && |"Hugging Face"| != |"Gemini"|;
      }
      assert t[2].name in ConfiguredNames(t) <==> IsConfigured(t[2].key) by {
        assert |"Gemini"| != |"Groq"| && |"Gemini"| != |"Hugging Face"|;
      }
    }
  }

  /** The script's filter is stricter than the router's: a key the script
      calls configured always passes the router's key test. */
  lemma ConfiguredPassesRouterKeyTest(env: Env, kind: Router.ProviderKind)
    requires IsConfigured(Getenv(env, Router.KeyVariable(kind)))
    ensures Router.KeyAdmitted(kind, Getenv(env, Router.KeyVariable(kind)))
  {
  }

  /** The converse fails: with a Gemini key equal to one of the script's
      placeholders the router still registers Gemini while the script
      reports it missing. */
  lemma GeminiPlaceholderDisagrees(env: Env)
    requires env == map["GEMINI_API_KEY" := "your_groq_api_key_here"]
    ensures Router.KeyAdmitted(Router.Gemini, Getenv(env, Router.KeyVariable(Router.Gemini)))
    ensures MissingNames(KeyTable(env)) == ["Groq", "Hugging Face", "Gemini"]
  {
    var t := KeyTable(env);
    assert "GROQ_API_KEY" !in env && "HUGGINGFACE_API_KEY" !in env;
    assert Placeholders[0] == "your_groq_api_key_here";
    assert !IsConfigured(t[0].key) && !IsConfigured(t[1].key) && !IsConfigured(t[2].key);
    assert t[..1][..0] == [];
    assert MissingNames(t[..1]) == ["Groq"];
    assert t[..2][..1] == t[..1];
    assert MissingNames(t[..2]) == ["Groq", "Hugging Face"];
    assert t[..2] == t[..|t| - 1];
  }
}
