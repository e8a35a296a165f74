/** Java's `String.equalsIgnoreCase` and the tag lookup both estimator classes use. */
module Text {
  import opened Wrappers
  import opened Snapshot

  /** `Character.toUpperCase` on ASCII letters and on the two non-ASCII letters whose
      upper case is an ASCII letter (dotless i, long s); every other character is kept. */
  function UpperCase(c: char): char {
    if 'a' <= c <= 'z' then (c as int - 32) as char
    else if c == '\U{131}' then 'I'
    else if c == '\U{17F}' then 'S'
    else c
  }

  /** `Character.toLowerCase` on ASCII letters and on the two non-ASCII letters whose
      lower case is an ASCII letter (I with dot above, Kelvin sign); every other character is kept. */
  function LowerCase(c: char): char {
    if 'A' <= c <= 'Z' then (c as int + 32) as char
    else if c == '\U{130}' then 'i'
    else if c == '\U{212A}' then 'k'
    else c
  }

  /** The per-character test of `String.regionMatches(true, ...)`. */
  predicate CharEqualsIgnoreCase(a: char, b: char) {
    a == b
    || UpperCase(a) == UpperCase(b)
    || LowerCase(UpperCase(a)) == LowerCase(UpperCase(b))
  }

  /** `s.equalsIgnoreCase(t)`: same length, and equal character by character up to case. */
  predicate EqualsIgnoreCase(s: string, t: string) {
    |s| == |t| && forall i :: 0 <= i < |s| ==> CharEqualsIgnoreCase(s[i], t[i])
  }

  /** A lower-case ASCII literal is matched by exactly the spellings that differ from it
      in the case of ASCII letters, or that use one of the four non-ASCII letters Java
      folds onto an ASCII letter. */
  lemma CharMatchesLowerAscii(c: char, k: char)
    requires 'a' <= k <= 'z' || k == '-'
    ensures CharEqualsIgnoreCase(c, k) <==>
      c == k || c == UpperCase(k)
      || (k == 'i' && (c == '\U{131}' || c == '\U{130}'))
      || (k == 's' && c == '\U{17F}')
      || (k == 'k' && c == '\U{212A}')
  {
  }

  /** `t.getValue()`, where a null value reads as "" (`Optional.map` drops a null). */
  function ValueOrEmpty(t: Tag): string {
    t.value.GetOr("")
  }

  /** The value of the first tag whose key equals `key` ignoring case, or "" when there
      is none: `tags.stream().filter(...).findFirst().map(Tag::getValue).orElse("")`. */
  function TagValue(tags: seq<Tag>, key: string): (r: string)
    ensures forall i :: 0 <= i < |tags| && EqualsIgnoreCase(tags[i].key, key)
                        && (forall j :: 0 <= j < i ==> !EqualsIgnoreCase(tags[j].key, key))
                        ==> r == ValueOrEmpty(tags[i])
    ensures (forall i :: 0 <= i < |tags| ==> !EqualsIgnoreCase(tags[i].key, key)) ==> r == ""
  {
    if tags == [] then ""
    else if EqualsIgnoreCase(tags[0].key, key) then ValueOrEmpty(tags[0])
    else
      var rest := TagValue(tags[1..], key);
      assert forall i :: 1 <= i < |tags| ==> tags[i] == tags[1..][i - 1];
      rest
  }
}
