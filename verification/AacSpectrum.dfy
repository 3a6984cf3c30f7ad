/** Spectral data of an AAC channel: which band of which window comes when, and how the values
    land in the coefficient array (encode_spectral_coeffs in libavcodec/aacenc.c,
    decode_spectrum_and_dequant in libavcodec/aacdec.c). */
module AacSpectrum {
  import opened Wrappers
  import opened Sums
  import opened BitIO
  import opened CodeLists
  import opened AacSpectral

  const COEFS: nat := 1024
  const WINDOW: nat := 128 // coefficients of a short window, and the stride between windows

  /** Window groups, coded bands, and the band offsets inside one window. */
  datatype Layout = Layout(short: bool, groups: seq<nat>, maxSfb: nat, offsets: seq<nat>)

  /** Windows in the first g groups. */
  function Windows(groups: seq<nat>, g: nat): nat
    requires g <= |groups|
  {
    if g == 0 then 0 else Windows(groups, g - 1) + groups[g - 1]
  }

  function WindowSize(lay: Layout): nat {
    if lay.short then WINDOW else COEFS
  }

  ghost predicate ValidLayout(lay: Layout) {
    && |lay.offsets| == lay.maxSfb + 1 && lay.offsets[0] == 0
    && (forall i :: 0 <= i < lay.maxSfb ==> lay.offsets[i] < lay.offsets[i + 1])
    && (forall i :: 0 <= i <= lay.maxSfb ==> lay.offsets[i] % 4 == 0 && lay.offsets[i] <= WindowSize(lay))
    && (forall g :: 0 <= g < |lay.groups| ==> lay.groups[g] > 0)
    && Windows(lay.groups, |lay.groups|) == if lay.short then 8 else 1
  }

  /** One band of one window: its codebook and its place among the coefficients. */
  datatype Job = Job(book: nat, start: nat, len: nat)

  /** The first w windows of band i in a group whose first window is first. */
  function WindowJobs(lay: Layout, book: nat, i: nat, first: nat, w: nat): (jobs: seq<Job>)
    requires i < lay.maxSfb && |lay.offsets| == lay.maxSfb + 1 && lay.offsets[i] <= lay.offsets[i + 1]
    ensures |jobs| == w
  {
    if w == 0 then []
    else WindowJobs(lay, book, i, first, w - 1)
         + [Job(book, (first + w - 1) * WINDOW + lay.offsets[i], lay.offsets[i + 1] - lay.offsets[i])]
  }

  /** The first i bands of a group with these codebooks. */
  function BandJobs(lay: Layout, books: seq<nat>, len: nat, first: nat, i: nat): seq<Job>
    requires ValidLayout(lay) && i <= lay.maxSfb == |books|
  {
    if i == 0 then []
    else BandJobs(lay, books, len, first, i - 1) + WindowJobs(lay, books[i - 1], i - 1, first, len)
  }

  /** The first g groups: groups, then bands, then the windows of the group. */
  function GroupJobs(lay: Layout, books: seq<seq<nat>>, g: nat): seq<Job>
    requires ValidLayout(lay) && g <= |lay.groups| == |books|
    requires forall k :: 0 <= k < |books| ==> |books[k]| == lay.maxSfb
  {
    if g == 0 then []
    else GroupJobs(lay, books, g - 1)
         + BandJobs(lay, books[g - 1], lay.groups[g - 1], Windows(lay.groups, g - 1), lay.maxSfb)
  }

  ghost predicate ValidBooks(lay: Layout, books: seq<seq<nat>>) {
    |books| == |lay.groups| && forall k :: 0 <= k < |books| ==> |books[k]| == lay.maxSfb
  }

  function Jobs(lay: Layout, books: seq<seq<nat>>): seq<Job>
    requires ValidLayout(lay) && ValidBooks(lay, books)
  {
    GroupJobs(lay, books, |lay.groups|)
  }

  // ---------- the values of a job ----------

  datatype Coded = Coded(job: Job, vals: seq<int>)

  predicate IsCoded(book: nat) {
    1 <= book <= 11
  }

  /** The code books 1..11 and the scalefactor code. */
  datatype Tables = Tables(scale: seq<Bits>, books: seq<CodeBook>)

  ghost predicate ValidTables(t: Tables) {
    && |t.scale| == 121 && PrefixFree(t.scale)
    && |t.books| == 11 && forall i :: 0 <= i < 11 ==> ValidBook(t.books[i], i + 1)
  }

  function JobCoder(t: Tables): Coded -> Bits
    requires |t.books| == 11
  {
    (c: Coded) => if IsCoded(c.job.book) then BandCode(t.books[c.job.book - 1], c.job.book, c.vals) else []
  }

  /** A band without a spectral codebook yields zeros and takes no bits. */
  function DecodeJob(t: Tables, data: Bits, pos: nat, job: Job): Result<Coded>
    requires |t.books| == 11
  {
    if !IsCoded(job.book) then Ok(Coded(job, seq(job.len, _ => 0)), pos)
    else
      match DecodeBand(t.books[job.book - 1], job.book, data, pos, job.len)
      case Err => Err
      case Ok(vals, p) => Ok(Coded(job, vals), p)
  }

  function JobParser(t: Tables): (Bits, nat, Job) -> Result<Coded>
    requires |t.books| == 11
  {
    (data: Bits, pos: nat, job: Job) => DecodeJob(t, data, pos, job)
  }

  /** The job holds these quantised values of the spectrum q. */
  ghost predicate Carries(c: Coded, q: seq<int>) {
    && c.job.start + c.job.len <= |q| && c.job.len % 4 == 0
    && c.vals == q[c.job.start..c.job.start + c.job.len]
    && (if IsCoded(c.job.book) then AllFit(c.job.book, c.vals) else forall i :: 0 <= i < |c.vals| ==> c.vals[i] == 0)
  }

  lemma JobReadsBackAt(t: Tables, data: Bits, pos: nat, c: Coded, q: seq<int>)
    requires ValidTables(t) && Carries(c, q) && StartsAt(data, pos, JobCoder(t)(c))
    ensures DecodeJob(t, data, pos, c.job) == Ok(c, pos + |JobCoder(t)(c)|)
  {
    var cb := c.job.book;
    hide ValidBook, Fits, BandCode, DecodeBand, StartsAt;
    if IsCoded(cb) {
      BandRoundTrip(t.books[cb - 1], cb, c.vals, data, pos);
    } else {
      assert c.vals == seq(c.job.len, _ => 0);
    }
  }

  lemma JobReadsBack(t: Tables, data: Bits, c: Coded, q: seq<int>)
    requires ValidTables(t) && Carries(c, q)
    ensures ReadsBack(JobParser(t), JobCoder(t), data, c.job, c)
  {
    forall p: nat | StartsAt(data, p, JobCoder(t)(c))
      ensures JobParser(t)(data, p, c.job) == Ok(c, p + |JobCoder(t)(c)|)
    {
      JobReadsBackAt(t, data, p, c, q);
    }
  }

  /** Every coded band of every window with its values. */
  function CodedJobs(jobs: seq<Job>, q: seq<int>): (cs: seq<Coded>)
    requires forall k :: 0 <= k < |jobs| ==> jobs[k].start + jobs[k].len <= |q|
    ensures |cs| == |jobs|
    ensures forall k :: 0 <= k < |jobs| ==> cs[k] == Coded(jobs[k], q[jobs[k].start..jobs[k].start + jobs[k].len])
  {
    seq(|jobs|, k requires 0 <= k < |jobs| => Coded(jobs[k], q[jobs[k].start..jobs[k].start + jobs[k].len]))
  }

  ghost predicate Transmits(jobs: seq<Job>, q: seq<int>) {
    && (forall k :: 0 <= k < |jobs| ==> jobs[k].start + jobs[k].len <= |q|)
    && forall k :: 0 <= k < |jobs| ==> Carries(CodedJobs(jobs, q)[k], q)
  }

  function SpectrumCode(t: Tables, jobs: seq<Job>, q: seq<int>): Bits
    requires |t.books| == 11
    requires forall k :: 0 <= k < |jobs| ==> jobs[k].start + jobs[k].len <= |q|
  {
    Cat(JobCoder(t), CodedJobs(jobs, q), |jobs|)
  }

  /** All bands read back in order. */
  lemma SpectrumReadsBack(t: Tables, jobs: seq<Job>, q: seq<int>, data: Bits, pos: nat)
    requires ValidTables(t) && Transmits(jobs, q) && StartsAt(data, pos, SpectrumCode(t, jobs, q))
    ensures Many(JobParser(t), data, pos, jobs, |jobs|) == Ok(CodedJobs(jobs, q), pos + |SpectrumCode(t, jobs, q)|)
  {
    var cs := CodedJobs(jobs, q);
    forall k | 0 <= k < |jobs| ensures ReadsBack(JobParser(t), JobCoder(t), data, jobs[k], cs[k]) {
      assert Carries(cs[k], q);
      JobReadsBack(t, data, cs[k], q);
    }
    ManyReadBack(JobParser(t), JobCoder(t), data, pos, jobs, cs, |jobs|);
    assert cs[..|jobs|] == cs;
  }

  // ---------- the coefficient array ----------

  /** Each band's values are stored where the band lies. */
  function Place(coefs: seq<int>, cs: seq<Coded>, k: nat): (r: seq<int>)
    requires k <= |cs| && forall i :: 0 <= i < |cs| ==> cs[i].job.start + |cs[i].vals| <= |coefs|
    ensures |r| == |coefs|
  {
    if k == 0 then coefs
    else
      var c, start := Place(coefs, cs, k - 1), cs[k - 1].job.start;
      c[..start] + cs[k - 1].vals + c[start + |cs[k - 1].vals|..]
  }

  ghost predicate InJob(job: Job, p: int) {
    job.start <= p < job.start + job.len
  }

  ghost predicate Reached(jobs: seq<Job>, p: int) {
    exists job :: job in jobs && InJob(job, p)
  }

  lemma ReachedMore(jobs: seq<Job>, k: nat, p: int)
    requires 0 < k <= |jobs|
    ensures Reached(jobs[..k], p) <==> Reached(jobs[..k - 1], p) || InJob(jobs[k - 1], p)
  {
    assert jobs[..k] == jobs[..k - 1] + [jobs[k - 1]];
    if Reached(jobs[..k - 1], p) {
      var job :| job in jobs[..k - 1] && InJob(job, p);
      assert job in jobs[..k];
    }
    if InJob(jobs[k - 1], p) {
      assert jobs[k - 1] in jobs[..k];
    }
  }

  lemma Overwrite(c: seq<int>, vals: seq<int>, start: nat, p: nat)
    requires start + |vals| <= |c| && p < |c|
    ensures (c[..start] + vals + c[start + |vals|..])[p]
        == if start <= p < start + |vals| then vals[p - start] else c[p]
  {
  }

  /** Placing the values of a spectrum reproduces it wherever a band lies. */
  lemma {:induction false} PlaceRestores(coefs: seq<int>, jobs: seq<Job>, cs: seq<Coded>, q: seq<int>, k: nat, p: nat)
    requires |coefs| == |q| && k <= |jobs| == |cs| && p < |q|
    requires forall i :: 0 <= i < |jobs| ==> jobs[i].start + jobs[i].len <= |q|
    requires forall i :: 0 <= i < |jobs| ==> cs[i] == Coded(jobs[i], q[jobs[i].start..jobs[i].start + jobs[i].len])
    ensures Place(coefs, cs, k)[p] == if Reached(jobs[..k], p) then q[p] else coefs[p]
  {
    if k > 0 {
      PlaceRestores(coefs, jobs, cs, q, k - 1, p);
      ReachedMore(jobs, k, p);
      hide Reached;
      var c := cs[k - 1];
      Overwrite(Place(coefs, cs, k - 1), c.vals, c.job.start, p);
    }
  }

  lemma {:induction false} WindowJobIn(lay: Layout, book: nat, i: nat, first: nat, n: nat, w: nat)
    requires i < lay.maxSfb && |lay.offsets| == lay.maxSfb + 1 && lay.offsets[i] <= lay.offsets[i + 1] && w < n
    ensures Job(book, (first + w) * WINDOW + lay.offsets[i], lay.offsets[i + 1] - lay.offsets[i])
         in WindowJobs(lay, book, i, first, n)
  {
    if w < n - 1 {
      WindowJobIn(lay, book, i, first, n - 1, w);
    }
  }

  lemma {:induction false} BandJobIn(lay: Layout, books: seq<nat>, len: nat, first: nat, n: nat, i: nat, job: Job)
    requires ValidLayout(lay) && i < n <= lay.maxSfb == |books|
    requires job in WindowJobs(lay, books[i], i, first, len)
    ensures job in BandJobs(lay, books, len, first, n)
  {
    hide ValidLayout, WindowJobs;
    if i < n - 1 {
      BandJobIn(lay, books, len, first, n - 1, i, job);
    }
  }

  lemma {:induction false} GroupJobIn(lay: Layout, books: seq<seq<nat>>, n: nat, g: nat, job: Job)
    requires ValidLayout(lay) && ValidBooks(lay, books) && g < n <= |lay.groups|
    requires job in BandJobs(lay, books[g], lay.groups[g], Windows(lay.groups, g), lay.maxSfb)
    ensures job in GroupJobs(lay, books, n)
  {
    hide ValidLayout, BandJobs;
    if g < n - 1 {
      GroupJobIn(lay, books, n - 1, g, job);
    }
  }

  lemma {:induction false} FindGroup(groups: seq<nat>, n: nat, w: nat) returns (g: nat)
    requires n <= |groups| && w < Windows(groups, n)
    ensures g < n && Windows(groups, g) <= w < Windows(groups, g) + groups[g]
  {
    if w >= Windows(groups, n - 1) {
      g := n - 1;
    } else {
      g := FindGroup(groups, n - 1, w);
    }
  }

  lemma {:induction false} FindBand(offsets: seq<nat>, n: nat, r: nat) returns (i: nat)
    requires n < |offsets| && offsets[0] <= r < offsets[n]
    ensures i < n && offsets[i] <= r < offsets[i + 1]
  {
    if r >= offsets[n - 1] {
      i := n - 1;
    } else {
      i := FindBand(offsets, n - 1, r);
    }
  }

  /** A coefficient below the last coded band of its window belongs to some band. */
  lemma EveryBandReached(lay: Layout, books: seq<seq<nat>>, w: nat, r: nat)
    requires ValidLayout(lay) && ValidBooks(lay, books)
    requires w < Windows(lay.groups, |lay.groups|) && r < lay.offsets[lay.maxSfb]
    ensures Reached(Jobs(lay, books), w * WINDOW + r)
  {
    var g := FindGroup(lay.groups, |lay.groups|, w);
    var i := FindBand(lay.offsets, lay.maxSfb, r);
    var first := Windows(lay.groups, g);
    WindowJobIn(lay, books[g][i], i, first, lay.groups[g], w - first);
    var job := Job(books[g][i], (first + (w - first)) * WINDOW + lay.offsets[i], lay.offsets[i + 1] - lay.offsets[i]);
    BandJobIn(lay, books[g], lay.groups[g], first, lay.maxSfb, i, job);
    GroupJobIn(lay, books, |lay.groups|, g, job);
    assert InJob(job, w * WINDOW + r);
  }

  /** Is coefficient p above the last coded band of its window? */
  predicate InTail(lay: Layout, p: nat)
    requires |lay.offsets| == lay.maxSfb + 1
  {
    p % WindowSize(lay) >= lay.offsets[lay.maxSfb]
  }

  /** The decoder first clears the coefficients above the last coded band of every window. */
  function ClearTails(lay: Layout, coefs: seq<int>): (r: seq<int>)
    requires |lay.offsets| == lay.maxSfb + 1
    ensures |r| == |coefs| && forall p :: 0 <= p < |coefs| ==> r[p] == if InTail(lay, p) then 0 else coefs[p]
  {
    seq(|coefs|, p requires 0 <= p < |coefs| => if InTail(lay, p) then 0 else coefs[p])
  }

  lemma NotTailIsReached(lay: Layout, books: seq<seq<nat>>, p: nat)
    requires ValidLayout(lay) && ValidBooks(lay, books) && p < COEFS && !InTail(lay, p)
    ensures Reached(Jobs(lay, books), p)
  {
    if lay.short {
      EveryBandReached(lay, books, p / WINDOW, p % WINDOW);
      assert (p / WINDOW) * WINDOW + p % WINDOW == p;
    } else {
      EveryBandReached(lay, books, 0, p);
    }
  }

  /** Whatever the coefficient array held before, placing the bands gives back the whole
      spectrum, if the spectrum is zero above the last coded band of every window. */
  lemma PlaceGivesSpectrum(lay: Layout, books: seq<seq<nat>>, q: seq<int>, coefs: seq<int>)
    requires ValidLayout(lay) && ValidBooks(lay, books) && |q| == |coefs| == COEFS
    requires forall k :: 0 <= k < |Jobs(lay, books)| ==> Jobs(lay, books)[k].start + Jobs(lay, books)[k].len <= |q|
    requires forall p :: 0 <= p < COEFS && InTail(lay, p) ==> q[p] == 0
    ensures var jobs := Jobs(lay, books); Place(ClearTails(lay, coefs), CodedJobs(jobs, q), |jobs|) == q
  {
    var jobs := Jobs(lay, books);
    var r := Place(ClearTails(lay, coefs), CodedJobs(jobs, q), |jobs|);
    assert jobs[..|jobs|] == jobs;
    forall p | 0 <= p < COEFS ensures r[p] == q[p] {
      PlaceRestores(ClearTails(lay, coefs), jobs, CodedJobs(jobs, q), q, |jobs|, p);
      if !InTail(lay, p) {
        NotTailIsReached(lay, books, p);
      }
    }
  }

  lemma {:induction false} WindowJobsFit(lay: Layout, book: nat, i: nat, first: nat, n: nat, k: nat)
    requires ValidLayout(lay) && i < lay.maxSfb && first + n <= (if lay.short then 8 else 1)
    requires k < n
    ensures var job := WindowJobs(lay, book, i, first, n)[k]; job.start + job.len <= COEFS && job.len % 4 == 0
  {
    if k < n - 1 {
      WindowJobsFit(lay, book, i, first, n - 1, k);
    }
  }

  lemma {:induction false} BandJobsFit(lay: Layout, books: seq<nat>, len: nat, first: nat, n: nat, k: nat)
    requires ValidLayout(lay) && n <= lay.maxSfb == |books| && first + len <= (if lay.short then 8 else 1)
    requires k < |BandJobs(lay, books, len, first, n)|
    ensures var job := BandJobs(lay, books, len, first, n)[k]; job.start + job.len <= COEFS && job.len % 4 == 0
  {
    var before := BandJobs(lay, books, len, first, n - 1);
    if k < |before| {
      BandJobsFit(lay, books, len, first, n - 1, k);
    } else {
      WindowJobsFit(lay, books[n - 1], n - 1, first, len, k - |before|);
    }
  }

  lemma {:induction false} WindowsMonotone(groups: seq<nat>, g: nat, n: nat)
    requires g <= n <= |groups|
    ensures Windows(groups, g) <= Windows(groups, n)
  {
    if g < n {
      WindowsMonotone(groups, g, n - 1);
    }
  }

  lemma {:induction false} GroupJobsFit(lay: Layout, books: seq<seq<nat>>, n: nat, k: nat)
    requires ValidLayout(lay) && ValidBooks(lay, books) && n <= |lay.groups|
    requires k < |GroupJobs(lay, books, n)|
    ensures var job := GroupJobs(lay, books, n)[k]; job.start + job.len <= COEFS && job.len % 4 == 0
  {
    var before := GroupJobs(lay, books, n - 1);
    if k < |before| {
      GroupJobsFit(lay, books, n - 1, k);
    } else {
      WindowsMonotone(lay.groups, n, |lay.groups|);
      BandJobsFit(lay, books[n - 1], lay.groups[n - 1], Windows(lay.groups, n - 1), lay.maxSfb, k - |before|);
    }
  }

  /** Every band lies inside the coefficient array. */
  lemma JobsFit(lay: Layout, books: seq<seq<nat>>)
    requires ValidLayout(lay) && ValidBooks(lay, books)
    ensures forall k :: 0 <= k < |Jobs(lay, books)| ==>
      Jobs(lay, books)[k].start + Jobs(lay, books)[k].len <= COEFS && Jobs(lay, books)[k].len % 4 == 0
  {
    forall k | 0 <= k < |Jobs(lay, books)|
      ensures Jobs(lay, books)[k].start + Jobs(lay, books)[k].len <= COEFS && Jobs(lay, books)[k].len % 4 == 0
    {
      GroupJobsFit(lay, books, |lay.groups|, k);
    }
  }

  /** Every decoded band belongs to its job and has the job's length. */
  lemma DecodedJobsFit(t: Tables, data: Bits, pos: nat, jobs: seq<Job>)
    requires |t.books| == 11 && forall k :: 0 <= k < |jobs| ==> jobs[k].len % 4 == 0
    ensures var r := Many(JobParser(t), data, pos, jobs, |jobs|);
      r.Ok? ==> forall k :: 0 <= k < |jobs| ==> r.value[k].job == jobs[k] && |r.value[k].vals| == jobs[k].len
  {
    forall p: nat, job: Job | job in jobs && JobParser(t)(data, p, job).Ok?
      ensures var c := JobParser(t)(data, p, job).value; c.job == job && |c.vals| == job.len
    {
      if IsCoded(job.book) {
        DecodedBandLength(t.books[job.book - 1], job.book, data, p, job.len);
      }
    }
    ManyHave(JobParser(t), data, pos, jobs, |jobs|, (job: Job, c: Coded) => c.job == job && |c.vals| == job.len);
  }

  /** Band offsets of a window: from 0 upwards in multiples of four. */
  ghost predicate ValidOffsets(offsets: seq<nat>, size: nat) {
    && |offsets| > 0 && offsets[0] == 0
    && (forall i :: 0 <= i < |offsets| - 1 ==> offsets[i] < offsets[i + 1])
    && (forall i :: 0 <= i < |offsets| ==> offsets[i] % 4 == 0 && offsets[i] <= size)
  }

  // ---------- the place of a band in the order ----------

  /** A row of jobs: one band in the windows of its group. */
  ghost predicate BandRow(jobs: seq<Job>, k: nat, len: nat, book: nat, first: nat, start: nat, size: nat) {
    && k + len <= |jobs|
    && forall m :: k <= m < k + len ==> jobs[m] == Job(book, (first + m - k) * WINDOW + start, size)
  }

  /** Where the jobs of band i of group g begin. */
  ghost function JobIndex(lay: Layout, books: seq<seq<nat>>, g: nat, i: nat): nat
    requires ValidLayout(lay) && ValidBooks(lay, books) && g < |lay.groups| && i <= lay.maxSfb
  {
    |GroupJobs(lay, books, g)| + |BandJobs(lay, books[g], lay.groups[g], Windows(lay.groups, g), i)|
  }

  lemma {:induction false} WindowJobAt(lay: Layout, book: nat, i: nat, first: nat, n: nat, w: nat)
    requires i < lay.maxSfb && |lay.offsets| == lay.maxSfb + 1 && lay.offsets[i] <= lay.offsets[i + 1] && w < n
    ensures WindowJobs(lay, book, i, first, n)[w]
         == Job(book, (first + w) * WINDOW + lay.offsets[i], lay.offsets[i + 1] - lay.offsets[i])
  {
    if w < n - 1 {
      WindowJobAt(lay, book, i, first, n - 1, w);
    }
  }

  lemma {:induction false} BandJobAt(lay: Layout, books: seq<nat>, len: nat, first: nat, n: nat, i: nat, w: nat)
    requires ValidLayout(lay) && i < n <= lay.maxSfb == |books| && w < len
    ensures |BandJobs(lay, books, len, first, i)| + len <= |BandJobs(lay, books, len, first, n)|
    ensures BandJobs(lay, books, len, first, n)[|BandJobs(lay, books, len, first, i)| + w]
         == Job(books[i], (first + w) * WINDOW + lay.offsets[i], lay.offsets[i + 1] - lay.offsets[i])
  {
    if i < n - 1 {
      BandJobAt(lay, books, len, first, n - 1, i, w);
    } else {
      WindowJobAt(lay, books[i], i, first, len, w);
    }
  }

  lemma {:induction false} GroupJobAt(lay: Layout, books: seq<seq<nat>>, n: nat, g: nat, j: nat)
    requires ValidLayout(lay) && ValidBooks(lay, books) && g < n <= |lay.groups|
    requires j < |BandJobs(lay, books[g], lay.groups[g], Windows(lay.groups, g), lay.maxSfb)|
    ensures |GroupJobs(lay, books, g)| + j < |GroupJobs(lay, books, n)|
    ensures GroupJobs(lay, books, n)[|GroupJobs(lay, books, g)| + j]
         == BandJobs(lay, books[g], lay.groups[g], Windows(lay.groups, g), lay.maxSfb)[j]
  {
    hide ValidLayout, BandJobs;
    if g < n - 1 {
      GroupJobAt(lay, books, n - 1, g, j);
    }
  }

  lemma RowJobAt(lay: Layout, books: seq<seq<nat>>, g: nat, i: nat, w: nat)
    requires ValidLayout(lay) && ValidBooks(lay, books) && g < |lay.groups| && i < lay.maxSfb && w < lay.groups[g]
    ensures var k := JobIndex(lay, books, g, i);
      && k + w < |Jobs(lay, books)|
      && Jobs(lay, books)[k + w]
         == Job(books[g][i], (Windows(lay.groups, g) + w) * WINDOW + lay.offsets[i],
                lay.offsets[i + 1] - lay.offsets[i])
  {
    hide ValidLayout, BandJobs, GroupJobs, WindowJobs, Windows;
    var len, first := lay.groups[g], Windows(lay.groups, g);
    BandJobAt(lay, books[g], len, first, lay.maxSfb, i, w);
    GroupJobAt(lay, books, |lay.groups|, g, |BandJobs(lay, books[g], len, first, i)| + w);
  }

  lemma BandRowAt(lay: Layout, books: seq<seq<nat>>, g: nat, i: nat)
    requires ValidLayout(lay) && ValidBooks(lay, books) && g < |lay.groups| && i < lay.maxSfb
    ensures var k := JobIndex(lay, books, g, i);
      && BandRow(Jobs(lay, books), k, lay.groups[g], books[g][i], Windows(lay.groups, g), lay.offsets[i],
                 lay.offsets[i + 1] - lay.offsets[i])
      && JobIndex(lay, books, g, i + 1) == k + lay.groups[g]
  {
    hide JobIndex, Jobs, Windows;
    var k, len := JobIndex(lay, books, g, i), lay.groups[g];
    NextBand(lay, books, g, i);
    RowJobAt(lay, books, g, i, len - 1);
    forall m | k <= m < k + len
      ensures Jobs(lay, books)[m]
           == Job(books[g][i], (Windows(lay.groups, g) + m - k) * WINDOW + lay.offsets[i],
                  lay.offsets[i + 1] - lay.offsets[i])
    {
      RowJobAt(lay, books, g, i, m - k);
    }
  }

  lemma NextBand(lay: Layout, books: seq<seq<nat>>, g: nat, i: nat)
    requires ValidLayout(lay) && ValidBooks(lay, books) && g < |lay.groups| && i < lay.maxSfb
    ensures JobIndex(lay, books, g, i + 1) == JobIndex(lay, books, g, i) + lay.groups[g]
  {
    hide ValidLayout, BandJobs, GroupJobs, Windows;
    BandLength(lay, books[g], lay.groups[g], Windows(lay.groups, g), i);
  }

  lemma BandLength(lay: Layout, books: seq<nat>, len: nat, first: nat, i: nat)
    requires ValidLayout(lay) && i < lay.maxSfb == |books|
    ensures |BandJobs(lay, books, len, first, i + 1)| == |BandJobs(lay, books, len, first, i)| + len
  {
  }

  lemma GroupEdges(lay: Layout, books: seq<seq<nat>>, g: nat)
    requires ValidLayout(lay) && ValidBooks(lay, books) && g < |lay.groups|
    ensures JobIndex(lay, books, g, 0) == |GroupJobs(lay, books, g)|
    ensures JobIndex(lay, books, g, lay.maxSfb) == |GroupJobs(lay, books, g + 1)|
    ensures |GroupJobs(lay, books, 0)| == 0
  {
  }

  lemma RowInside(jobs: seq<Job>, k: nat, len: nat, book: nat, first: nat, start: nat, size: nat)
    requires BandRow(jobs, k, len, book, first, start, size)
    ensures k + len <= |jobs|
  {
  }

  lemma RowJob(jobs: seq<Job>, k: nat, len: nat, book: nat, first: nat, start: nat, size: nat, n: nat)
    requires BandRow(jobs, k, len, book, first, start, size) && n < len
    ensures k + n < |jobs| && jobs[k + n] == Job(book, (first + n) * WINDOW + start, size)
  {
  }

  lemma NoJobs(lay: Layout, books: seq<seq<nat>>)
    requires ValidLayout(lay) && ValidBooks(lay, books)
    ensures GroupJobs(lay, books, 0) == []
  {
  }

  lemma {:induction false} JobsInside(lay: Layout, books: seq<seq<nat>>, g: nat)
    requires ValidLayout(lay) && ValidBooks(lay, books) && g <= |lay.groups|
    ensures |GroupJobs(lay, books, g)| <= |Jobs(lay, books)|
    decreases |lay.groups| - g
  {
    hide ValidLayout, BandJobs;
    if g < |lay.groups| {
      JobsInside(lay, books, g + 1);
    }
  }

  /** Which band of which window a job is. */
  lemma {:induction false} WindowJobIs(lay: Layout, book: nat, i: nat, first: nat, n: nat, k: nat)
    requires i < lay.maxSfb && |lay.offsets| == lay.maxSfb + 1 && lay.offsets[i] <= lay.offsets[i + 1] && k < n
    ensures WindowJobs(lay, book, i, first, n)[k]
         == Job(book, (first + k) * WINDOW + lay.offsets[i], lay.offsets[i + 1] - lay.offsets[i])
  {
    WindowJobAt(lay, book, i, first, n, k);
  }

  lemma {:induction false} BandJobIs(lay: Layout, books: seq<nat>, len: nat, first: nat, n: nat, k: nat)
    returns (i: nat, w: nat)
    requires ValidLayout(lay) && n <= lay.maxSfb == |books| && k < |BandJobs(lay, books, len, first, n)|
    ensures i < n && w < len
    ensures BandJobs(lay, books, len, first, n)[k]
         == Job(books[i], (first + w) * WINDOW + lay.offsets[i], lay.offsets[i + 1] - lay.offsets[i])
  {
    var before := BandJobs(lay, books, len, first, n - 1);
    if k < |before| {
      i, w := BandJobIs(lay, books, len, first, n - 1, k);
    } else {
      i, w := n - 1, k - |before|;
      WindowJobIs(lay, books[i], i, first, len, w);
    }
  }

  lemma {:induction false} JobIs(lay: Layout, books: seq<seq<nat>>, n: nat, k: nat) returns (g: nat, i: nat, w: nat)
    requires ValidLayout(lay) && ValidBooks(lay, books) && n <= |lay.groups| && k < |GroupJobs(lay, books, n)|
    ensures g < n && i < lay.maxSfb && w < lay.groups[g]
    ensures GroupJobs(lay, books, n)[k]
         == Job(books[g][i], (Windows(lay.groups, g) + w) * WINDOW + lay.offsets[i],
                lay.offsets[i + 1] - lay.offsets[i])
  {
    var before := GroupJobs(lay, books, n - 1);
    if k < |before| {
      g, i, w := JobIs(lay, books, n - 1, k);
    } else {
      g := n - 1;
      i, w := BandJobIs(lay, books[g], lay.groups[g], Windows(lay.groups, g), lay.maxSfb, k - |before|);
    }
  }

  lemma {:induction false} JobsOrdered(lay: Layout, books: seq<seq<nat>>, g: nat, i: nat)
    requires ValidLayout(lay) && ValidBooks(lay, books) && g < |lay.groups| && i <= lay.maxSfb
    ensures JobIndex(lay, books, g, i) <= JobIndex(lay, books, g, lay.maxSfb)
    decreases lay.maxSfb - i
  {
    hide JobIndex, BandRow;
    if i < lay.maxSfb {
      BandRowAt(lay, books, g, i);
      JobsOrdered(lay, books, g, i + 1);
    }
  }
}
