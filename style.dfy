/** `ASCIIEscapeManager`: a list of SGR codes written to the terminal around a block. */
module Escape {
  import opened Text
  import opened SeqFacts

  /** The codes as the manager stores them, already turned into strings. */
  datatype Style = Style(codes: seq<string>)

  /** `ASCIIEscapeManager(codes)`: every code is kept as `str(code)`, in order. */
  function MakeStyle(codes: seq<int>): (r: Style)
    ensures |r.codes| == |codes|
    ensures forall i :: 0 <= i < |codes| ==> r.codes[i] == IntToString(codes[i])
  {
    Style(MapSeq(IntToString, codes))
  }

  /** `a + b`: the codes of `a` followed by those of `b`. */
  function Combine(a: Style, b: Style): Style
  {
    Style(a.codes + b.codes)
  }

  const Csi: string := "\U{1B}["

  /** What `__enter__` writes: the control sequence introducer, the codes separated by `;`,
      and `m`. */
  function EnterSequence(s: Style): string
  {
    Csi + JoinWith(";", s.codes) + "m"
  }

  /** The sequence is a well-formed SGR control sequence: the introducer, then the final `m`. */
  lemma EnterSequenceShape(s: Style)
    ensures StartsWith(EnterSequence(s), Csi) && EndsWith(EnterSequence(s), "m")
  {
    var e := EnterSequence(s);
    assert e[..|Csi|] == Csi;
    assert e[|e| - 1..] == "m";
  }

  /** What `__exit__` writes, whatever the style: reset all attributes. */
  const ResetSequence: string := Csi + "0m"

  /** The predefined managers, written with the code strings they store. */
  const BOLD := Style(["1"])
  const UNDERSCORE := Style(["4"])
  const BLINK := Style(["5"])
  const BLACK := Style(["30"])
  const RED := Style(["31"])
  const GREEN := Style(["32"])
  const YELLOW := Style(["33"])
  const BLUE := Style(["34"])
  const MAGENTA := Style(["35"])
  const CYAN := Style(["36"])
  const WHITE := Style(["37"])

  /** Each predefined manager is what `ASCIIEscapeManager([code])` builds. */
  lemma PredefinedStyles()
    ensures BOLD == MakeStyle([1]) && UNDERSCORE == MakeStyle([4]) && BLINK == MakeStyle([5])
    ensures BLACK == MakeStyle([30]) && RED == MakeStyle([31]) && GREEN == MakeStyle([32])
    ensures YELLOW == MakeStyle([33]) && BLUE == MakeStyle([34]) && MAGENTA == MakeStyle([35])
    ensures CYAN == MakeStyle([36]) && WHITE == MakeStyle([37])
  {
    assert DigitChar(1) == '1' && DigitChar(3) == '3' && DigitChar(4) == '4' && DigitChar(5) == '5';
    assert DigitChar(0) == '0' && DigitChar(2) == '2' && DigitChar(6) == '6' && DigitChar(7) == '7';
    assert NatToString(3) == "3";
    assert NatToString(30) == "30" && NatToString(31) == "31" && NatToString(32) == "32";
    assert NatToString(33) == "33" && NatToString(34) == "34" && NatToString(35) == "35";
    assert NatToString(36) == "36" && NatToString(37) == "37";
  }

  /** Building a manager from concatenated code lists is the same as adding the two managers. */
  lemma MakeStyleCombine(a: seq<int>, b: seq<int>)
    ensures MakeStyle(a + b) == Combine(MakeStyle(a), MakeStyle(b))
  {
    MapSeqAppend(IntToString, a, b);
  }

  /** The non-negative codes can be read back from the sequence `__enter__` writes: the text
      between the introducer and the final `m`, split at `;`, gives each code's digits. */
  lemma EnterSequenceRoundTrip(codes: seq<nat>)
    requires |codes| >= 1
    ensures var e := EnterSequence(MakeStyle(codes));
      SplitOn(';', e[|Csi|..|e| - 1]) == MakeStyle(codes).codes
      && forall i :: 0 <= i < |codes| ==> ParseDigits(SplitOn(';', e[|Csi|..|e| - 1])[i]) == codes[i]
  {
    var parts := MakeStyle(codes).codes;
    forall i | 0 <= i < |parts| ensures ';' !in parts[i] {
      assert parts[i] == NatToString(codes[i]);
    }
    SplitJoinRoundTrip(';', parts);
    forall i | 0 <= i < |codes| ensures ParseDigits(parts[i]) == codes[i] {
      NatToStringRoundTrip(codes[i]);
    }
  }
}
