/** The report's 2048-byte `flags` buffer: what it holds as text, the
    `snprintf` that appends a decoder's output at offset `flag_len`, and
    the final removal of the trailing space. */
module FlagText {
  import opened FeatureFlags

  const FLAGS_SIZE: nat := 2048

  /** `buf` holds the C string `t`: `t`, then NUL to the end. */
  predicate HoldsText(buf: seq<char>, t: string) {
    && |buf| == FLAGS_SIZE
    && |t| < FLAGS_SIZE
    && (forall k :: 0 <= k < |t| ==> buf[k] == t[k])
    && (forall k :: |t| <= k < FLAGS_SIZE ==> buf[k] == '\0')
  }

  /** What `snprintf(buf + len, FLAGS_SIZE - len, "%s", s)` leaves in the
      buffer: the first FLAGS_SIZE - len - 1 characters of `s` from
      offset `len`, followed by a NUL; nothing before `len` or after the
      NUL changes. */
  predicate Appended(before: seq<char>, after: seq<char>, len: nat, s: string)
    requires |before| == |after| == FLAGS_SIZE && len < FLAGS_SIZE
  {
    var w := if |s| < FLAGS_SIZE - len then |s| else FLAGS_SIZE - len - 1;
    forall k :: 0 <= k < FLAGS_SIZE ==>
      after[k] == (if len <= k < len + w then s[k - len] else if k == len + w then '\0' else before[k])
  }

  /** Appending to a buffer that holds `t`, at offset |t|, text that fits
      makes it hold `t + s`. */
  lemma AppendHolds(before: seq<char>, after: seq<char>, t: string, s: string)
    requires HoldsText(before, t) && |after| == FLAGS_SIZE
    requires |t| + |s| < FLAGS_SIZE
    requires Appended(before, after, |t|, s)
    ensures HoldsText(after, t + s)
  {
  }

  /** The text after "Remove last space": a trailing space is dropped. */
  function Trim(t: string): (r: string)
    ensures |t| > 0 && t[|t| - 1] == ' ' ==> r + " " == t
    ensures !(|t| > 0 && t[|t| - 1] == ' ') ==> r == t
  {
    if |t| > 0 && t[|t| - 1] == ' ' then t[..|t| - 1] else t
  }

  /** Writing NUL over the last character of `t` when it is a space turns a
      buffer holding `t` into one holding Trim(t), and changes no other
      position. */
  lemma TrimHolds(before: seq<char>, after: seq<char>, t: string)
    requires HoldsText(before, t) && |after| == FLAGS_SIZE
    requires |t| > 0 && t[|t| - 1] == ' '
    requires after == before[|t| - 1 := '\0']
    ensures HoldsText(after, Trim(t))
    ensures forall k :: 0 <= k < FLAGS_SIZE && k != |t| - 1 ==> after[k] == before[k]
  {
  }

  /** Trimming the output of the decoders leaves the emitted mnemonics
      separated by single spaces, with nothing before the first or after
      the last. */
  lemma TrimRenderIsJoin(es: seq<FlagBit>)
    ensures Trim(Render(es)) == Join(Tokens(es))
  {
    if es != [] {
      RenderIsJoinPlusSpace(es);
      var t := Render(es);
      assert t[|t| - 1] == ' ';
      assert t[..|t| - 1] == Join(Tokens(es));
    }
  }
}
