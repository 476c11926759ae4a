/**
 * The configuration lookups the runner makes through `ConfigManager.get_config`.
 * ConfigManager is not part of this model: its store is a map from key to
 * value, `get_config(key, default)` returns the stored value or the default,
 * and `get_config(key)` returns the empty string for a missing key.
 */
module Config {
  import opened Wrappers

  type ConfigStore = map<string, string>

  /** `get_config(key, default)`. */
  function GetConfig(cfg: ConfigStore, key: string, default: string): string
  {
    Get(cfg, key, default)
  }

  /** `get_config(key)` without a default. */
  function GetConfigOrEmpty(cfg: ConfigStore, key: string): (r: string)
    ensures key in cfg ==> r == cfg[key]
    ensures key !in cfg ==> r == ""
  {
    GetConfig(cfg, key, "")
  }

  /** `str.lower()` on one character, for ASCII letters. */
  function LowerChar(c: char): (r: char)
    ensures 'A' <= c <= 'Z' ==> 'a' <= r <= 'z' && r as int == c as int + 32
    ensures !('A' <= c <= 'Z') ==> r == c
  {
    if 'A' <= c <= 'Z' then (c as int - 'A' as int + 'a' as int) as char else c
  }

  /** `str.lower()`, for ASCII letters: no upper-case letter is left, and only upper-case letters change. */
  function Lower(s: string): (r: string)
    ensures |r| == |s|
    ensures forall i :: 0 <= i < |s| ==> r[i] == LowerChar(s[i])
    ensures forall i :: 0 <= i < |s| ==> !('A' <= r[i] <= 'Z')
    ensures forall i :: 0 <= i < |s| && r[i] != s[i] ==> 'A' <= s[i] <= 'Z'
  {
    seq(|s|, i requires 0 <= i < |s| => LowerChar(s[i]))
  }

  /** Lower-casing twice is lower-casing once, so lower-cased comparisons ignore case. */
  lemma LowerIdempotent(s: string)
    ensures Lower(Lower(s)) == Lower(s)
  {
    var once := Lower(s);
    forall i | 0 <= i < |s| ensures Lower(once)[i] == once[i] {
      assert !('A' <= once[i] <= 'Z');
    }
  }
}
