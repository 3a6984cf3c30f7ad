/** Section data of an AAC channel: runs of scalefactor bands that share a codebook
    (ISO/IEC 14496-3 table 4.46). */
module AacSections {
  import opened Sums
  import opened BitIO
  import opened CodeLists

  datatype Section = Section(book: nat, run: nat)

  /** Length of one run field: 5 bits for a long window, 3 for short windows. */
  function RunBits(short: bool): (n: nat)
    ensures n == 3 || n == 5
  {
    if short then 3 else 5
  }

  /** The escape value: a run field with all bits set is followed by another. */
  function RunEsc(short: bool): (e: nat)
    ensures e == 7 || e == 31
  {
    if short then 7 else 31
  }

  /** How many run fields a run takes. */
  function RunFields(short: bool, run: nat): nat {
    if run >= RunEsc(short) then 1 + RunFields(short, run - RunEsc(short)) else 1
  }

  /** while (count >= run_esc) write the escape; then write the rest. */
  function RunCode(short: bool, run: nat): Bits {
    if run >= RunEsc(short) then
      ToBits(RunBits(short), RunEsc(short)) + RunCode(short, run - RunEsc(short))
    else
      ToBits(RunBits(short), run)
  }

  lemma {:induction false} RunCodeLength(short: bool, run: nat)
    ensures |RunCode(short, run)| == RunBits(short) * RunFields(short, run)
  {
    if run >= RunEsc(short) {
      RunCodeLength(short, run - RunEsc(short));
    }
  }

  function SectionCode(short: bool, s: Section): (b: Bits) {
    ToBits(4, s.book) + RunCode(short, s.run)
  }

  /** Writes one section. */
  function Coder(short: bool): Section -> Bits {
    (s: Section) => SectionCode(short, s)
  }

  function SectionsCode(short: bool, ss: seq<Section>): Bits {
    Cat(Coder(short), ss, |ss|)
  }

  lemma SectionsLast(short: bool, ss: seq<Section>)
    requires ss != []
    ensures SectionsCode(short, ss) == SectionsCode(short, ss[..|ss| - 1]) + SectionCode(short, ss[|ss| - 1])
  {
    CatPrefix(Coder(short), ss, ss[..|ss| - 1], |ss| - 1);
  }

  /** Number of bands the sections cover. */
  function Covered(ss: seq<Section>): nat {
    if ss == [] then 0 else Covered(ss[..|ss| - 1]) + ss[|ss| - 1].run
  }

  /** The codebook of every covered band. */
  function Books(ss: seq<Section>): (b: seq<nat>)
    ensures |b| == Covered(ss)
  {
    if ss == [] then []
    else Books(ss[..|ss| - 1]) + seq(ss[|ss| - 1].run, _ => ss[|ss| - 1].book)
  }
}
