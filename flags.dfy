/** The three feature-flag decoders.  Each one tests a fixed list of
    register bits in a fixed order and emits "<mnemonic> " for every bit that
    is set and whose vendor gate lets it through.  The lists are kept as data:
    one entry per conditional piece of the decoder's format string. */
module FeatureFlags {
  import opened Bits

  /** The register an entry tests. */
  datatype Reg = Ebx | Ecx | Edx

  /** `Always`: an ungated piece; `IntelOnly`: `intel ? (bit ? tok : "") : ""`;
      `AmdOnly`: `intel ? "" : (bit ? tok : "")`. */
  datatype Gate = Always | IntelOnly | AmdOnly

  /** A mnemonic: a nonempty word of at most 13 characters (the longest in
      the tables is "3dnowprefetch"). */
  type Mnemonic = s: string | 0 < |s| <= 13 witness "a"

  datatype FlagBit = FlagBit(reg: Reg, mask: bv32, mnemonic: Mnemonic, gate: Gate)

  function RegValue(reg: Reg, regs: Regs): bv32 {
    match reg
    case Ebx => regs.ebx
    case Ecx => regs.ecx
    case Edx => regs.edx
  }

  predicate Allowed(gate: Gate, intel: bool) {
    match gate
    case Always => true
    case IntelOnly => intel
    case AmdOnly => !intel
  }

  /** Whether the decoder emits this entry's mnemonic. */
  predicate Shows(e: FlagBit, intel: bool, regs: Regs) {
    Allowed(e.gate, intel) && RegValue(e.reg, regs) & e.mask != 0
  }

  /** The entries that are emitted, in table order. */
  function Selected(table: seq<FlagBit>, intel: bool, regs: Regs): (s: seq<FlagBit>)
    ensures forall e :: e in s <==> e in table && Shows(e, intel, regs)
    ensures |s| <= |table|
  {
    if table == [] then []
    else if Shows(table[0], intel, regs) then [table[0]] + Selected(table[1..], intel, regs)
    else Selected(table[1..], intel, regs)
  }

  /** Each entry followed by one space. */
  function Render(es: seq<FlagBit>): string {
    if es == [] then "" else es[0].mnemonic + " " + Render(es[1..])
  }

  /** The decoder for a table: the string its `snprintf` call formats. */
  function DecodeFlags(table: seq<FlagBit>, intel: bool, regs: Regs): string {
    Render(Selected(table, intel, regs))
  }

  /** The mnemonics of entries, in order. */
  function Tokens(es: seq<FlagBit>): (ts: seq<string>)
    ensures |ts| == |es|
    ensures forall i :: 0 <= i < |es| ==> ts[i] == es[i].mnemonic
  {
    if es == [] then [] else [es[0].mnemonic] + Tokens(es[1..])
  }

  /** The space each entry takes in the output, at most. */
  function Width(es: seq<FlagBit>): nat {
    if es == [] then 0 else |es[0].mnemonic| + 1 + Width(es[1..])
  }

  // ---------------------------------------------------------------------
  // Properties of every decoder

  lemma {:induction false} RenderLength(es: seq<FlagBit>)
    ensures |Render(es)| == Width(es)
  {
    if es != [] {
      RenderLength(es[1..]);
    }
  }

  /** Rendering distributes over concatenation: the output of an earlier
      part of a table comes before that of a later part. */
  lemma {:induction false} RenderAppend(a: seq<FlagBit>, b: seq<FlagBit>)
    ensures Render(a + b) == Render(a) + Render(b)
  {
    if a == [] {
      assert a + b == b;
    } else {
      assert (a + b)[0] == a[0];
      assert (a + b)[1..] == a[1..] + b;
      RenderAppend(a[1..], b);
    }
  }

  /** Selecting from two parts of a table is selecting from each part. */
  lemma {:induction false} SelectedAppend(a: seq<FlagBit>, b: seq<FlagBit>, intel: bool, regs: Regs)
    ensures Selected(a + b, intel, regs) == Selected(a, intel, regs) + Selected(b, intel, regs)
  {
    if a == [] {
      assert a + b == b;
    } else {
      assert (a + b)[0] == a[0];
      assert (a + b)[1..] == a[1..] + b;
      SelectedAppend(a[1..], b, intel, regs);
    }
  }

  lemma {:induction false} SelectedWidth(table: seq<FlagBit>, intel: bool, regs: Regs)
    ensures Width(Selected(table, intel, regs)) <= Width(table)
  {
    if table != [] {
      SelectedWidth(table[1..], intel, regs);
    }
  }

  /** A decoder's output is never longer than its table's width. */
  lemma DecodeFlagsLength(table: seq<FlagBit>, intel: bool, regs: Regs)
    ensures |DecodeFlags(table, intel, regs)| <= Width(table)
  {
    RenderLength(Selected(table, intel, regs));
    SelectedWidth(table, intel, regs);
  }

  /** All-zero registers give the empty string, whatever the vendor. */
  lemma {:induction false} ZeroRegistersNoFlags(table: seq<FlagBit>, intel: bool)
    ensures Selected(table, intel, Regs(0, 0, 0, 0)) == []
    ensures DecodeFlags(table, intel, Regs(0, 0, 0, 0)) == ""
  {
    if table != [] {
      ZeroRegistersNoFlags(table[1..], intel);
    }
  }

  /** Vendor gating: with `intel` clear no Intel-gated entry is emitted, with
      `intel` set no AMD-gated one. */
  lemma GatesRespected(table: seq<FlagBit>, intel: bool, regs: Regs, e: FlagBit)
    requires e in Selected(table, intel, regs)
    ensures intel ==> e.gate != AmdOnly
    ensures !intel ==> e.gate != IntelOnly
  {
  }

  /** A mnemonic that the table lists only under the Intel gate never
      appears in the output when `intel` is clear. */
  lemma IntelOnlyTokenAbsent(table: seq<FlagBit>, regs: Regs, m: string)
    requires forall e :: e in table && e.mnemonic == m ==> e.gate == IntelOnly
    ensures m !in Tokens(Selected(table, false, regs))
  {
    var s := Selected(table, false, regs);
    var ts := Tokens(s);
    forall i | 0 <= i < |ts| ensures ts[i] != m {
      assert s[i] in s;
    }
  }

  /** And symmetrically for the AMD gate when `intel` is set. */
  lemma AmdOnlyTokenAbsent(table: seq<FlagBit>, regs: Regs, m: string)
    requires forall e :: e in table && e.mnemonic == m ==> e.gate == AmdOnly
    ensures m !in Tokens(Selected(table, true, regs))
  {
    var s := Selected(table, true, regs);
    var ts := Tokens(s);
    forall i | 0 <= i < |ts| ensures ts[i] != m {
      assert s[i] in s;
    }
  }

  /** Every entry whose bit is set and whose gate allows it is emitted. */
  lemma ShownTokenPresent(table: seq<FlagBit>, intel: bool, regs: Regs, e: FlagBit)
    requires e in table && Shows(e, intel, regs)
    ensures e.mnemonic in Tokens(Selected(table, intel, regs))
  {
    var s := Selected(table, intel, regs);
    var i :| 0 <= i < |s| && s[i] == e;
    assert Tokens(s)[i] == e.mnemonic;
  }

  lemma {:induction false} WidthBound(es: seq<FlagBit>)
    ensures Width(es) <= 14 * |es|
  {
    if es != [] {
      WidthBound(es[1..]);
    }
  }

  /** The tokens joined by single spaces. */
  function Join(ts: seq<string>): string {
    if ts == [] then "" else if |ts| == 1 then ts[0] else ts[0] + " " + Join(ts[1..])
  }

  /** Dropping the one trailing space of a rendering leaves the tokens
      joined by single spaces. */
  lemma {:induction false} RenderIsJoinPlusSpace(es: seq<FlagBit>)
    requires es != []
    ensures Render(es) == Join(Tokens(es)) + " "
  {
    if |es| > 1 {
      RenderIsJoinPlusSpace(es[1..]);
      assert Tokens(es)[1..] == Tokens(es[1..]);
    }
  }

  /** What every decoder returns: nothing when no entry is shown, and
      otherwise the shown mnemonics joined by spaces with one trailing
      space, never longer than the table allows. */
  lemma DecoderOutput(table: seq<FlagBit>, intel: bool, regs: Regs)
    ensures |DecodeFlags(table, intel, regs)| <= Width(table)
    ensures DecodeFlags(table, intel, regs) == "" <==> Selected(table, intel, regs) == []
    ensures Selected(table, intel, regs) != [] ==>
              DecodeFlags(table, intel, regs) == Join(Tokens(Selected(table, intel, regs))) + " "
  {
    DecodeFlagsLength(table, intel, regs);
    if Selected(table, intel, regs) != [] {
      RenderIsJoinPlusSpace(Selected(table, intel, regs));
    }
  }
}
