/** Run-scoped configuration read from the environment (src/config/parser.ts). */
module Config {
  import opened Js

  /** The value `Number(process.env.MAX_PARSED_SONGS)` takes: `NaN` when the
      variable is unset or not numeric, otherwise an integer (0 for ""). */
  datatype Quota = NaN | Finite(q: int)

  /** The alternatives of the pattern `/^(true|1)$/i`. */
  const StartWithServerWords: seq<string> := ["true", "1"]

  /** An anchored, case-insensitive match of a whole string against a list
      of alternatives. */
  predicate MatchesAnchored(alternatives: seq<string>, s: string) {
    exists k :: 0 <= k < |alternatives| && EqualsIgnoreCase(s, alternatives[k])
  }

  /** `isStartWithServer()`: the regular expression is tested against the
      value turned into a string, so an unset variable is tested as "undefined". */
  predicate IsStartWithServer(startWithServer: Option<string>) {
    MatchesAnchored(StartWithServerWords, Stringify(startWithServer))
  }

  /** The flag holds exactly for "1" and for the four letters of "true" in any case. */
  lemma StartWithServerExactly(s: string)
    ensures IsStartWithServer(Some(s)) <==>
      s == "1" ||
      (|s| == 4 && s[0] in "tT" && s[1] in "rR" && s[2] in "uU" && s[3] in "eE")
  {
    if IsStartWithServer(Some(s)) {
      var k :| 0 <= k < 2 && EqualsIgnoreCase(s, StartWithServerWords[k]);
      if k == 1 {
        assert LowerAscii(s[0]) == '1';
        assert s == "1";
      } else {
        assert LowerAscii(s[0]) == 't' && LowerAscii(s[1]) == 'r';
        assert LowerAscii(s[2]) == 'u' && LowerAscii(s[3]) == 'e';
      }
    }
    if s == "1" {
      assert EqualsIgnoreCase(s, StartWithServerWords[1]);
    }
    if |s| == 4 && s[0] in "tT" && s[1] in "rR" && s[2] in "uU" && s[3] in "eE" {
      assert EqualsIgnoreCase(s, StartWithServerWords[0]);
    }
  }

  lemma StartWithServerExamples()
    ensures IsStartWithServer(Some("true")) && IsStartWithServer(Some("TRUE"))
    ensures IsStartWithServer(Some("True")) && IsStartWithServer(Some("1"))
    ensures !IsStartWithServer(Some("")) && !IsStartWithServer(Some("0"))
    ensures !IsStartWithServer(Some("yes")) && !IsStartWithServer(Some(" true"))
    ensures !IsStartWithServer(Some("true1")) && !IsStartWithServer(Some("false"))
  {
    StartWithServerExactly("true");
    StartWithServerExactly("TRUE");
    StartWithServerExactly("True");
    StartWithServerExactly("1");
    StartWithServerExactly("");
    StartWithServerExactly("0");
    StartWithServerExactly("yes");
    StartWithServerExactly(" true");
    StartWithServerExactly("true1");
    StartWithServerExactly("false");
  }

  /** An unset variable never starts the parser with the server. */
  lemma StartWithServerUnset()
    ensures !IsStartWithServer(None)
  {
    StartWithServerExactly("undefined");
  }
}
