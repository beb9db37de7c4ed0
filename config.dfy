/**
 * The process environment the endpoints consult, and the debug switch: the
 * DEBUG_MODE variable, read with "false" as its default, is lower-cased and
 * compared with the word "true".
 */
module Config {
  import opened Common
  import opened Text

  /** The three environment variables the core reads; None when unset. */
  datatype Env = Env(
    debugMode: Option<string>,
    firecrawlKey: Option<string>,
    deepseekKey: Option<string>)

  /**
   * The debug test every stage but outreach makes. It is on exactly when
   * DEBUG_MODE is set to "true" up to case; an unset variable falls back to
   * "false" and leaves it off. (Python lowers non-ASCII letters too, but none
   * of them lowers to a letter of "true".)
   */
  function DebugOn(env: Env): (on: bool)
    ensures on <==> env.debugMode.Some? && IsTrueWord(env.debugMode.value)
  {
    var v := env.debugMode.GetOr("false");
    var w := Lower(v);
    assert w == "true" ==> IsTrueWord(v) by {
      if w == "true" {
        assert w[0] == LowerChar(v[0]) == 't' && w[1] == LowerChar(v[1]) == 'r';
        assert w[2] == LowerChar(v[2]) == 'u' && w[3] == LowerChar(v[3]) == 'e';
      }
    }
    assert IsTrueWord(v) ==> w == "true" by {
      if IsTrueWord(v) {
        assert w[0] == 't' && w[1] == 'r' && w[2] == 'u' && w[3] == 'e';
      }
    }
    w == "true"
  }

  /** The word "true" in any mix of upper- and lower-case letters. */
  predicate IsTrueWord(v: string) {
    && |v| == 4
    && (v[0] == 't' || v[0] == 'T')
    && (v[1] == 'r' || v[1] == 'R')
    && (v[2] == 'u' || v[2] == 'U')
    && (v[3] == 'e' || v[3] == 'E')
  }
}
