/** Packing transcripts into files of bounded size, in order. */
module Packer {

  const MAX_CHARS_PER_FILE: nat := 100_000
  const SEPARATOR := "\n\n"

  /** The content of a file that holds these transcripts. */
  function Join(group: seq<string>): (content: string) {
    if group == [] then ""
    else if |group| == 1 then group[0]
    else group[0] + "\n\n" + Join(group[1..])
  }

  function JoinedSize(group: seq<string>): (n: nat)
    ensures n == |Join(group)|
  {
    if group == [] then 0
    else if |group| == 1 then |group[0]|
    else |group[0]| + 2 + JoinedSize(group[1..])
  }

  function Flatten(groups: seq<seq<string>>): (all: seq<string>) {
    if groups == [] then [] else groups[0] + Flatten(groups[1..])
  }

  function Contents(groups: seq<seq<string>>): (files: seq<string>)
    ensures |files| == |groups|
    ensures forall i :: 0 <= i < |groups| ==> files[i] == Join(groups[i])
  {
    seq(|groups|, i requires 0 <= i < |groups| => Join(groups[i]))
  }

  /** A group may share a file if it fits, or is a single transcript of any size. */
  predicate Feasible(group: seq<string>) {
    |group| == 1 || (group != [] && JoinedSize(group) <= 100_000)
  }

  /** An order-preserving way of distributing the transcripts over files. */
  predicate Packing(groups: seq<seq<string>>, transcripts: seq<string>) {
    Flatten(groups) == transcripts && forall i :: 0 <= i < |groups| ==> Feasible(groups[i])
  }

  predicate NoneEmpty(transcripts: seq<string>) {
    forall t :: t in transcripts ==> t != ""
  }

  // ---- joining ----

  lemma {:induction false} JoinConcat(a: seq<string>, b: seq<string>)
    requires a != [] && b != []
    ensures Join(a + b) == Join(a) + SEPARATOR + Join(b)
    decreases |a|
  {
    if |a| == 1 {
      assert (a + b)[1..] == b;
    } else {
      assert (a + b)[1..] == a[1..] + b;
      JoinConcat(a[1..], b);
      assert a[0] + SEPARATOR + (Join(a[1..]) + SEPARATOR + Join(b)) == a[0] + SEPARATOR + Join(a[1..]) + SEPARATOR + Join(b);
    }
  }

  /** Joining the files is joining all the transcripts. */
  lemma {:induction false} PackingIsLossless(groups: seq<seq<string>>)
    requires forall i :: 0 <= i < |groups| ==> groups[i] != []
    ensures Join(Contents(groups)) == Join(Flatten(groups))
    decreases |groups|
  {
    if groups != [] {
      var rest := groups[1..];
      PackingIsLossless(rest);
      assert Contents(groups)[1..] == Contents(rest);
      if rest == [] {
        assert Flatten(groups) == groups[0];
      } else {
        assert rest[0] != [] && Flatten(rest) != [];
        JoinConcat(groups[0], Flatten(rest));
      }
    }
  }

  // ---- greedy is optimal ----

  /** Whether the packer keeps `t` in the file that holds `group`. */
  predicate Fits(group: seq<string>, t: string) {
    JoinedSize(group) + |t| + 2 <= MAX_CHARS_PER_FILE
  }

  lemma {:induction false} SizeSnoc(group: seq<string>, t: string)
    requires group != []
    ensures JoinedSize(group + [t]) == JoinedSize(group) + 2 + |t|
  {
    if |group| == 1 {
      assert (group + [t])[1..] == [t];
    } else {
      assert (group + [t])[1..] == group[1..] + [t];
      SizeSnoc(group[1..], t);
    }
  }

  lemma {:induction false} SizeMonotone(group: seq<string>, n: nat, m: nat)
    requires 0 < n <= m <= |group|
    ensures JoinedSize(group[..n]) <= JoinedSize(group[..m])
    decreases m
  {
    if n < m {
      SizeMonotone(group, n, m - 1);
      assert group[..m] == group[..m - 1] + [group[m - 1]];
      SizeSnoc(group[..m - 1], group[m - 1]);
    }
  }

  /** Dropping transcripts from the front of a group does not make it larger. */
  lemma {:induction false} SizeSuffix(group: seq<string>, k: nat)
    requires k < |group|
    ensures JoinedSize(group[k..]) <= JoinedSize(group)
    decreases k
  {
    if k > 0 {
      SizeSuffix(group[1..], k - 1);
      assert group[1..][k - 1..] == group[k..];
    }
  }

  /** The number of transcripts the packer puts in the first file, the first `n`
      being there already. */
  function FirstCut(transcripts: seq<string>, n: nat): (cut: nat)
    requires 0 < n <= |transcripts|
    ensures n <= cut <= |transcripts|
    decreases |transcripts| - n
  {
    if n < |transcripts| && Fits(transcripts[..n], transcripts[n]) then FirstCut(transcripts, n + 1) else n
  }

  /** The greedy packing. */
  function Greedy(transcripts: seq<string>): (groups: seq<seq<string>>)
    decreases |transcripts|
  {
    if transcripts == [] then []
    else
      var cut := FirstCut(transcripts, 1);
      [transcripts[..cut]] + Greedy(transcripts[cut..])
  }

  /** No longer first file than the first `cut` transcripts is feasible. */
  predicate NoLonger(transcripts: seq<string>, cut: nat) {
    forall m :: cut < m <= |transcripts| ==> !Feasible(transcripts[..m])
  }

  /** The first file is feasible, and no longer first file is. */
  lemma {:induction false} FirstCutMaximal(transcripts: seq<string>, n: nat)
    requires 0 < n <= |transcripts| && Feasible(transcripts[..n])
    ensures Feasible(transcripts[..FirstCut(transcripts, n)])
    ensures NoLonger(transcripts, FirstCut(transcripts, n))
    decreases |transcripts| - n
  {
    if n == |transcripts| {
      assert NoLonger(transcripts, n);
    } else {
      FitsFeasible(transcripts, n);
      if Fits(transcripts[..n], transcripts[n]) {
        FirstCutMaximal(transcripts, n + 1);
      } else {
        NothingLongerFits(transcripts, n);
      }
    }
  }

  lemma {:induction false} FitsFeasible(transcripts: seq<string>, n: nat)
    requires 0 < n < |transcripts|
    ensures Fits(transcripts[..n], transcripts[n]) <==> Feasible(transcripts[..n + 1])
  {
    assert transcripts[..n + 1] == transcripts[..n] + [transcripts[n]];
    SizeSnoc(transcripts[..n], transcripts[n]);
  }

  lemma {:induction false} NothingLongerFits(transcripts: seq<string>, n: nat)
    requires 0 < n < |transcripts| && !Feasible(transcripts[..n + 1])
    ensures NoLonger(transcripts, n)
  {
    forall m | n < m <= |transcripts|
      ensures !Feasible(transcripts[..m])
    {
      SizeMonotone(transcripts, n + 1, m);
    }
  }

  lemma {:induction false} GreedyPacks(transcripts: seq<string>)
    ensures Packing(Greedy(transcripts), transcripts)
    decreases |transcripts|
  {
    if transcripts != [] {
      var cut := FirstCut(transcripts, 1);
      assert Feasible(transcripts[..1]);
      FirstCutMaximal(transcripts, 1);
      GreedyPacks(transcripts[cut..]);
      PackingCons(transcripts[..cut], Greedy(transcripts[cut..]), transcripts[cut..]);
      assert transcripts[..cut] + transcripts[cut..] == transcripts;
    }
  }

  lemma {:induction false} PackingCons(first: seq<string>, groups: seq<seq<string>>, rest: seq<string>)
    requires Feasible(first) && Packing(groups, rest)
    ensures Packing([first] + groups, first + rest)
  {
    assert ([first] + groups)[1..] == groups;
  }

  /** A feasible first file of a suffix ends no earlier than it would for the whole. */
  lemma {:induction false} CutOfSuffix(transcripts: seq<string>, k: nat)
    requires transcripts != [] && k < FirstCut(transcripts, 1)
    ensures k + FirstCut(transcripts[k..], 1) >= FirstCut(transcripts, 1)
  {
    var cut := FirstCut(transcripts, 1);
    assert Feasible(transcripts[..1]);
    FirstCutMaximal(transcripts, 1);
    assert Feasible(transcripts[k..][..1]);
    FirstCutMaximal(transcripts[k..], 1);
    var tail := transcripts[k..cut];
    assert transcripts[..cut][k..] == tail && transcripts[k..][..cut - k] == tail;
    SizeSuffix(transcripts[..cut], k);
    assert Feasible(tail);
  }

  /** Packing fewer transcripts never takes more files. */
  lemma {:induction false} GreedyMonotone(transcripts: seq<string>, k: nat)
    requires k <= |transcripts|
    ensures |Greedy(transcripts[k..])| <= |Greedy(transcripts)|
    decreases |transcripts|
  {
    if 0 < k < |transcripts| {
      var cut := FirstCut(transcripts, 1);
      if k < cut {
        var cut' := FirstCut(transcripts[k..], 1);
        CutOfSuffix(transcripts, k);
        assert transcripts[k..][cut'..] == transcripts[cut..][k + cut' - cut..];
        GreedyMonotone(transcripts[cut..], k + cut' - cut);
      } else {
        assert transcripts[cut..][k - cut..] == transcripts[k..];
        GreedyMonotone(transcripts[cut..], k - cut);
      }
    } else if k == 0 {
      assert transcripts[0..] == transcripts;
    } else {
      assert transcripts[k..] == [];
    }
  }

  /** The greedy packing uses the fewest files of all order-preserving packings. */
  lemma {:induction false} GreedyIsOptimal(transcripts: seq<string>, groups: seq<seq<string>>)
    requires Packing(groups, transcripts)
    ensures |Greedy(transcripts)| <= |groups|
    decreases |groups|
  {
    if groups != [] {
      var first, rest := groups[0], groups[1..];
      var n := |first|;
      assert Feasible(first) && transcripts[..n] == first && transcripts[n..] == Flatten(rest);
      GreedyIsOptimal(transcripts[n..], rest);
      GreedyTakesMost(transcripts, n);
    }
  }

  /** After any feasible first file, the rest takes at least as many files as after the
      greedy one. */
  lemma {:induction false} GreedyTakesMost(transcripts: seq<string>, n: nat)
    requires 0 < n <= |transcripts| && Feasible(transcripts[..n])
    ensures |Greedy(transcripts)| <= 1 + |Greedy(transcripts[n..])|
  {
    var cut := FirstCut(transcripts, 1);
    assert Feasible(transcripts[..1]);
    FirstCutMaximal(transcripts, 1);
    assert n <= cut;
    assert transcripts[n..][cut - n..] == transcripts[cut..];
    GreedyMonotone(transcripts[n..], cut - n);
  }

  // ---- the packer ----

  function Decimal(n: nat): (digits: string) {
    if n < 10 then [('0' as int + n) as char] else Decimal(n / 10) + [('0' as int + n % 10) as char]
  }

  function PadStart(s: string, length: nat): (padded: string)
    decreases length - |s|
  {
    if |s| < length then PadStart("0" + s, length) else s
  }

  function FileName(index: nat): (name: string) {
    "session-transcripts-" + PadStart(Decimal(index), 3) + ".txt"
  }

  predicate AllDigits(s: string) {
    forall k :: 0 <= k < |s| ==> '0' <= s[k] <= '9'
  }

  /** The number that a string of decimal digits denotes. */
  function Value(digits: string): nat
    requires AllDigits(digits)
  {
    if digits == "" then 0
    else
      var n := |digits| - 1;
      10 * Value(digits[..n]) + (digits[n] as int - '0' as int)
  }

  lemma {:induction false} DecimalReads(n: nat)
    ensures AllDigits(Decimal(n)) && Value(Decimal(n)) == n && Decimal(n) != ""
  {
    if n >= 10 {
      DecimalReads(n / 10);
      var front, last := Decimal(n / 10), ('0' as int + n % 10) as char;
      assert (front + [last])[..|front|] == front;
    } else {
      assert Value("") == 0 && Decimal(n)[..0] == "";
    }
  }

  lemma {:induction false} ZeroInFront(s: string)
    requires AllDigits(s)
    ensures AllDigits("0" + s) && Value("0" + s) == Value(s)
    decreases |s|
  {
    if s == "" {
      assert "0" + s == "0" && "0"[..0] == "";
      assert Value("") == 0 && Value("0") == 0;
    } else {
      var n := |s| - 1;
      ZeroInFront(s[..n]);
      assert ("0" + s)[..n + 1] == "0" + s[..n];
    }
  }

  lemma {:induction false} PadReads(s: string, length: nat)
    requires AllDigits(s)
    ensures var padded := PadStart(s, length);
      AllDigits(padded) && Value(padded) == Value(s) && |padded| == if |s| < length then length else |s|
    decreases length - |s|
  {
    if |s| < length {
      ZeroInFront(s);
      PadReads("0" + s, length);
    }
  }

  /** A file's name carries its index, in at least three decimal digits and no more than
      needed beyond that. */
  lemma {:induction false} FileNameReads(index: nat) returns (digits: string)
    ensures FileName(index) == "session-transcripts-" + digits + ".txt"
    ensures AllDigits(digits) && Value(digits) == index && |digits| >= 3
    ensures |digits| > 3 ==> digits[0] != '0'
  {
    DecimalReads(index);
    PadReads(Decimal(index), 3);
    digits := PadStart(Decimal(index), 3);
    DecimalStarts(index);
  }

  lemma {:induction false} DecimalStarts(n: nat)
    ensures Decimal(n) != "" && (n > 0 ==> Decimal(n)[0] != '0') && (n == 0 ==> Decimal(n) == "0")
  {
    if n >= 10 {
      DecimalStarts(n / 10);
    }
  }

  /** No two files get the same name. */
  lemma {:induction false} FileNamesDiffer(i: nat, j: nat)
    requires i != j
    ensures FileName(i) != FileName(j)
  {
    var a := FileNameReads(i);
    var b := FileNameReads(j);
    var prefix := "session-transcripts-";
    assert FileName(i)[|prefix|..|FileName(i)| - 4] == a;
    assert FileName(j)[|prefix|..|FileName(j)| - 4] == b;
  }

  function FileNames(count: nat): (names: seq<string>)
    ensures |names| == count
    ensures forall i :: 0 <= i < count ==> names[i] == FileName(i)
  {
    seq(count, i requires 0 <= i => FileName(i))
  }

  predicate Distinct(names: seq<string>) {
    forall i, j :: 0 <= i < j < |names| ==> names[i] != names[j]
  }

  lemma {:induction false} NamesDiffer(count: nat)
    ensures Distinct(FileNames(count))
  {
    forall i, j | 0 <= i < j < count
      ensures FileNames(count)[i] != FileNames(count)[j]
    {
      FileNamesDiffer(i, j);
    }
  }

  /** The greedy packing of what is still to come, given what the open file holds. */
  ghost function Finish(open: seq<string>, rest: seq<string>): seq<seq<string>> {
    if open == [] then Greedy(rest)
    else
      var all := open + rest;
      var cut := FirstCut(all, |open|);
      [all[..cut]] + Greedy(all[cut..])
  }

  lemma {:induction false} FinishOpen(transcripts: seq<string>)
    requires transcripts != []
    ensures Finish([], transcripts) == Finish([transcripts[0]], transcripts[1..])
  {
    assert [transcripts[0]] + transcripts[1..] == transcripts;
  }

  lemma {:induction false} FinishFits(open: seq<string>, rest: seq<string>)
    requires open != [] && rest != [] && Fits(open, rest[0])
    ensures Finish(open, rest) == Finish(open + [rest[0]], rest[1..])
  {
    var all := open + rest;
    assert all == (open + [rest[0]]) + rest[1..] by {
      assert rest == [rest[0]] + rest[1..];
    }
    assert all[..|open|] == open && all[|open|] == rest[0];
    assert FirstCut(all, |open|) == FirstCut(all, |open| + 1);
  }

  lemma {:induction false} FinishFull(open: seq<string>, rest: seq<string>)
    requires open != [] && (rest == [] || !Fits(open, rest[0]))
    ensures Finish(open, rest) == [open] + Finish([], rest)
  {
    var all := open + rest;
    assert all[..|open|] == open && all[|open|..] == rest;
  }

  /** An oversized transcript fills a file of its own. */
  lemma {:induction false} FinishOversized(rest: seq<string>)
    requires rest != [] && |rest[0]| > MAX_CHARS_PER_FILE
    ensures Finish([], rest) == [[rest[0]]] + Finish([], rest[1..])
  {
    assert rest[..1] == [rest[0]];
  }

  // ---- empty transcripts ----

  /** The transcripts that reach a file, `size` being the length of the open file's
      content: an empty transcript is lost when the open file is empty. */
  function Kept(size: nat, transcripts: seq<string>): (kept: seq<string>)
    decreases |transcripts|
  {
    if transcripts == [] then []
    else
      var t, rest := transcripts[0], transcripts[1..];
      var before := if size + |t| + 2 > MAX_CHARS_PER_FILE then 0 else size;
      if |t| > MAX_CHARS_PER_FILE then [t] + Kept(0, rest)
      else if before == 0 && t == "" then Kept(0, rest)
      else [t] + Kept(if before == 0 then |t| else before + 2 + |t|, rest)
  }

  lemma {:induction false} KeptStartsNonEmpty(transcripts: seq<string>)
    ensures Kept(0, transcripts) != [] ==> Kept(0, transcripts)[0] != ""
    decreases |transcripts|
  {
    if transcripts != [] && transcripts[0] == "" {
      KeptStartsNonEmpty(transcripts[1..]);
    }
  }

  lemma {:induction false} NoneEmptyKept(size: nat, transcripts: seq<string>)
    requires NoneEmpty(transcripts)
    ensures Kept(size, transcripts) == transcripts
    decreases |transcripts|
  {
    if transcripts != [] {
      assert transcripts[0] in transcripts && forall t :: t in transcripts[1..] ==> t in transcripts;
      var t := transcripts[0];
      var before := if size + |t| + 2 > MAX_CHARS_PER_FILE then 0 else size;
      NoneEmptyKept(if |t| > MAX_CHARS_PER_FILE then 0 else if before == 0 then |t| else before + 2 + |t|, transcripts[1..]);
    }
  }

  function TotalSize(transcripts: seq<string>): nat {
    if transcripts == [] then 0 else |transcripts[0]| + TotalSize(transcripts[1..])
  }

  lemma {:induction false} SizeFormula(group: seq<string>)
    ensures JoinedSize(group) == if group == [] then 0 else TotalSize(group) + 2 * (|group| - 1)
    decreases |group|
  {
    if |group| > 1 {
      SizeFormula(group[1..]);
    }
  }

  lemma {:induction false} KeptCounts(size: nat, transcripts: seq<string>)
    ensures TotalSize(Kept(size, transcripts)) == TotalSize(transcripts)
    ensures |Kept(size, transcripts)| <= |transcripts|
    ensures |Kept(size, transcripts)| == |transcripts| ==> Kept(size, transcripts) == transcripts
    decreases |transcripts|
  {
    if transcripts != [] {
      var t, rest := transcripts[0], transcripts[1..];
      var before := if size + |t| + 2 > MAX_CHARS_PER_FILE then 0 else size;
      var next := if |t| > MAX_CHARS_PER_FILE then 0 else if before == 0 then |t| else before + 2 + |t|;
      KeptCounts(next, rest);
      KeptCounts(0, rest);
      assert ([t] + Kept(next, rest))[1..] == Kept(next, rest);
      assert transcripts == [t] + rest;
    }
  }

  // ---- the packer's promises ----

  /** The files the packer writes. */
  function Files(transcripts: seq<string>): (files: seq<string>) {
    Contents(Greedy(Kept(0, transcripts)))
  }

  /** Nothing is lost: joining the files gives back all the transcripts joined, if and
      only if no empty transcript was dropped (or it was the only one). */
  lemma {:induction false} LosslessExactly(transcripts: seq<string>)
    ensures Join(Files(transcripts)) == Join(transcripts) <==> Kept(0, transcripts) == transcripts || transcripts == [""]
    ensures NoneEmpty(transcripts) ==> Kept(0, transcripts) == transcripts
  {
    var kept := Kept(0, transcripts);
    GreedyPacks(kept);
    PackingIsLossless(Greedy(kept));
    SizeFormula(kept);
    SizeFormula(transcripts);
    KeptCounts(0, transcripts);
    if NoneEmpty(transcripts) {
      NoneEmptyKept(0, transcripts);
    }
    if |transcripts| == 1 && kept == [] {
      assert TotalSize(transcripts[1..]) == 0;
    }
  }

  /** An empty transcript in front of others is lost, and its separator with it. */
  lemma {:induction false} LeadingEmptyIsLost()
    ensures Join(Files(["", "a"])) != Join(["", "a"])
  {
    LosslessExactly(["", "a"]);
    assert ["", "a"][1..] == ["a"];
    assert Kept(0, ["", "a"]) == Kept(0, ["a"]);
    assert Kept(0, ["a"]) == ["a"] + Kept(1, []);
  }

  /** Only an empty transcript in front of a file is lost: one at the very beginning has no
      effect at all, and where everything fits into one file each later one is kept, with
      its separator. */
  lemma {:induction false} EmptiesExactly(transcripts: seq<string>)
    ensures Files([""] + transcripts) == Files(transcripts)
    ensures transcripts != [] && transcripts[0] != "" && JoinedSize(transcripts) <= MAX_CHARS_PER_FILE ==>
      Files(transcripts) == [Join(transcripts)]
  {
    assert ([""] + transcripts)[1..] == transcripts;
    if transcripts != [] && transcripts[0] != "" && JoinedSize(transcripts) <= MAX_CHARS_PER_FILE {
      assert transcripts[..1] == [transcripts[0]];
      SizeMonotone(transcripts, 1, |transcripts|);
      assert transcripts[..|transcripts|] == transcripts;
      AllKept(transcripts, 1);
      assert Kept(0, transcripts) == [transcripts[0]] + Kept(|transcripts[0]|, transcripts[1..]);
      assert Kept(0, transcripts) == transcripts;
      AllInOne(transcripts, 1);
      var all := [transcripts];
      assert transcripts[|transcripts|..] == [] && Greedy([]) == [];
      assert Greedy(transcripts) == all;
    }
  }

  /** Transcripts that still fit are all kept, empty or not. */
  lemma {:induction false} AllKept(transcripts: seq<string>, n: nat)
    requires 0 < n <= |transcripts| && transcripts[0] != "" && JoinedSize(transcripts) <= MAX_CHARS_PER_FILE
    ensures Kept(JoinedSize(transcripts[..n]), transcripts[n..]) == transcripts[n..]
    decreases |transcripts| - n
  {
    if n < |transcripts| {
      var size := JoinedSize(transcripts[..n]);
      NextFits(transcripts, n);
      assert size > 0 by {
        SizeMonotone(transcripts, 1, n);
        assert transcripts[..1] == [transcripts[0]];
      }
      AllKept(transcripts, n + 1);
      KeptNext(size, transcripts[n], transcripts[n + 1..]);
      assert transcripts[n..] == [transcripts[n]] + transcripts[n + 1..];
    }
  }

  lemma {:induction false} KeptNext(size: nat, t: string, rest: seq<string>)
    requires 0 < size && size + |t| + 2 <= MAX_CHARS_PER_FILE
    ensures Kept(size, [t] + rest) == [t] + Kept(size + 2 + |t|, rest)
  {
    assert ([t] + rest)[1..] == rest;
  }

  lemma {:induction false} NextFits(transcripts: seq<string>, n: nat)
    requires 0 < n < |transcripts| && JoinedSize(transcripts) <= MAX_CHARS_PER_FILE
    ensures Fits(transcripts[..n], transcripts[n])
    ensures JoinedSize(transcripts[..n + 1]) == JoinedSize(transcripts[..n]) + 2 + |transcripts[n]|
  {
    assert transcripts[..n + 1] == transcripts[..n] + [transcripts[n]];
    SizeSnoc(transcripts[..n], transcripts[n]);
    SizeMonotone(transcripts, n + 1, |transcripts|);
    assert transcripts[..|transcripts|] == transcripts;
  }

  lemma {:induction false} AllInOne(transcripts: seq<string>, n: nat)
    requires 0 < n <= |transcripts| && JoinedSize(transcripts) <= MAX_CHARS_PER_FILE
    ensures FirstCut(transcripts, n) == |transcripts|
    decreases |transcripts| - n
  {
    if n < |transcripts| {
      NextFits(transcripts, n);
      AllInOne(transcripts, n + 1);
    }
  }

  /** Every file is within the limit unless it holds exactly one oversized transcript. */
  lemma {:induction false} FilesAreBounded(transcripts: seq<string>, i: nat)
    requires i < |Files(transcripts)|
    ensures |Files(transcripts)[i]| > 100_000 ==> Files(transcripts)[i] in transcripts
  {
    var kept := Kept(0, transcripts);
    var groups := Greedy(kept);
    GreedyPacks(kept);
    assert Feasible(groups[i]);
    GroupMember(groups, i, 0);
    KeptMembers(0, transcripts);
  }

  lemma {:induction false} KeptMembers(size: nat, transcripts: seq<string>)
    ensures forall t :: t in Kept(size, transcripts) ==> t in transcripts
    decreases |transcripts|
  {
    if transcripts != [] {
      var t, rest := transcripts[0], transcripts[1..];
      var before := if size + |t| + 2 > MAX_CHARS_PER_FILE then 0 else size;
      KeptMembers(if |t| > MAX_CHARS_PER_FILE then 0 else if before == 0 then |t| else before + 2 + |t|, rest);
      KeptMembers(0, rest);
    }
  }

  lemma {:induction false} GroupMember(groups: seq<seq<string>>, i: nat, j: nat)
    requires i < |groups| && j < |groups[i]|
    ensures groups[i][j] in Flatten(groups)
    decreases i
  {
    if i > 0 {
      GroupMember(groups[1..], i - 1, j);
    }
  }

  /** `part` is `whole` with some transcripts left out. */
  predicate Subsequence(part: seq<string>, whole: seq<string>)
    decreases |whole|
  {
    || part == []
    || (whole != [] && part[0] == whole[0] && Subsequence(part[1..], whole[1..]))
    || (whole != [] && Subsequence(part, whole[1..]))
  }

  lemma {:induction false} KeptIsSubsequence(size: nat, transcripts: seq<string>)
    ensures Subsequence(Kept(size, transcripts), transcripts)
    decreases |transcripts|
  {
    if transcripts != [] {
      var t, rest := transcripts[0], transcripts[1..];
      var before := if size + |t| + 2 > MAX_CHARS_PER_FILE then 0 else size;
      var next := if |t| > MAX_CHARS_PER_FILE then 0 else if before == 0 then |t| else before + 2 + |t|;
      KeptIsSubsequence(next, rest);
      KeptIsSubsequence(0, rest);
      assert ([t] + Kept(next, rest))[1..] == Kept(next, rest);
    }
  }

  /** Where a subsequence of two lists in a row passes from the first to the second. */
  lemma {:induction false} SubsequenceCut(part: seq<string>, a: seq<string>, b: seq<string>) returns (n: nat)
    requires Subsequence(part, a + b)
    ensures n <= |part| && Subsequence(part[..n], a) && Subsequence(part[n..], b)
    decreases |a|
  {
    if part == [] || a == [] {
      assert a == [] ==> a + b == b;
      assert part[0..] == part;
      n := 0;
    } else {
      assert (a + b)[1..] == a[1..] + b;
      if part[0] == a[0] && Subsequence(part[1..], a[1..] + b) {
        var k := SubsequenceCut(part[1..], a[1..], b);
        n := k + 1;
        assert part[..n][1..] == part[1..][..k] && part[n..] == part[1..][k..];
      } else {
        n := SubsequenceCut(part, a[1..], b);
      }
    }
  }

  lemma {:induction false} SubsequenceSize(part: seq<string>, whole: seq<string>)
    requires Subsequence(part, whole)
    ensures |part| <= |whole| && TotalSize(part) <= TotalSize(whole)
    decreases |whole|
  {
    if part != [] {
      if part[0] == whole[0] && Subsequence(part[1..], whole[1..]) {
        SubsequenceSize(part[1..], whole[1..]);
      } else {
        SubsequenceSize(part, whole[1..]);
      }
    }
  }

  lemma {:induction false} FeasiblePart(part: seq<string>, group: seq<string>)
    requires part != [] && Subsequence(part, group) && Feasible(group)
    ensures Feasible(part)
  {
    SubsequenceSize(part, group);
    SizeFormula(part);
    SizeFormula(group);
  }

  /** Leaving transcripts out of a packing leaves a packing with no more files. */
  lemma {:induction false} Thinned(part: seq<string>, groups: seq<seq<string>>) returns (thin: seq<seq<string>>)
    requires Subsequence(part, Flatten(groups)) && forall i :: 0 <= i < |groups| ==> Feasible(groups[i])
    ensures Packing(thin, part) && |thin| <= |groups|
    decreases |groups|
  {
    if groups == [] {
      thin := [];
    } else {
      var n := SubsequenceCut(part, groups[0], Flatten(groups[1..]));
      var first, rest := part[..n], part[n..];
      var others := Thinned(rest, groups[1..]);
      if n == 0 {
        assert rest == part;
        thin := others;
      } else {
        FeasiblePart(first, groups[0]);
        thin := [first] + others;
        assert thin[1..] == others && first + rest == part;
      }
    }
  }

  /** No order-preserving packing of the transcripts needs fewer files. */
  lemma {:induction false} FewestFiles(transcripts: seq<string>, groups: seq<seq<string>>)
    requires Packing(groups, transcripts)
    ensures |Files(transcripts)| <= |groups|
  {
    KeptIsSubsequence(0, transcripts);
    var thin := Thinned(Kept(0, transcripts), groups);
    GreedyIsOptimal(Kept(0, transcripts), thin);
  }

  /** The open file is full: what comes next does not fit, dropped empties included. */
  lemma {:induction false} FlushIsDue(open: seq<string>, rest: seq<string>)
    requires open != [] && Join(open) != "" && rest != [] && |Join(open)| + |rest[0]| + 2 > MAX_CHARS_PER_FILE
    ensures Finish(open, Kept(|Join(open)|, rest)) == [open] + Finish([], Kept(0, rest))
  {
    var kept := Kept(0, rest);
    assert Kept(|Join(open)|, rest) == kept;
    KeptStartsNonEmpty(rest);
    if kept != [] {
      assert rest[0] != "" ==> kept[0] == rest[0];
    }
    FinishFull(open, kept);
  }

  class Splitter {
    var outputFiles: seq<string>
    var written: seq<string>
    var currentContent: string
    var fileIndex: nat

    constructor ()
      ensures outputFiles == [] && written == [] && currentContent == "" && fileIndex == 0
    {
      outputFiles, written, currentContent, fileIndex := [], [], "", 0;
    }

    method Write(content: string)
      modifies this`outputFiles, this`written, this`fileIndex
      ensures outputFiles == old(outputFiles) + [FileName(old(fileIndex))]
      ensures written == old(written) + [content]
      ensures fileIndex == old(fileIndex) + 1
    {
      outputFiles := outputFiles + [FileName(fileIndex)];
      written := written + [content];
      fileIndex := fileIndex + 1;
    }

    method FlushCurrent()
      modifies this
      ensures currentContent == ""
      ensures old(currentContent) == "" ==> written == old(written) && outputFiles == old(outputFiles) && fileIndex == old(fileIndex)
      ensures old(currentContent) != "" ==>
        && outputFiles == old(outputFiles) + [FileName(old(fileIndex))]
        && written == old(written) + [old(currentContent)]
        && fileIndex == old(fileIndex) + 1
    {
      if |currentContent| > 0 {
        Write(currentContent);
        currentContent := "";
      }
    }

    /** The open file's content is the join of its transcripts, and files are numbered
        as they are written. */
    ghost predicate Holds(open: seq<string>)
      reads this
    {
      && Join(open) == currentContent && (open == [] <==> currentContent == "")
      && fileIndex == |written| && outputFiles == FileNames(fileIndex)
    }

    /** All the files there will be, if `rest` is still to come. */
    ghost function Outlook(open: seq<string>, rest: seq<string>): seq<string>
      reads this
    {
      written + Contents(Finish(open, Kept(|currentContent|, rest)))
    }

    /** Closes the open file if the next transcript does not fit. */
    method MakeRoom(transcript: string, ghost open: seq<string>, ghost rest: seq<string>) returns (ghost open': seq<string>)
      requires Holds(open) && rest != [] && rest[0] == transcript
      modifies this
      ensures Holds(open') && Outlook(open', rest) == old(Outlook(open, rest))
      ensures open' != [] ==> |currentContent| + |transcript| + 2 <= MAX_CHARS_PER_FILE
    {
      open' := open;
      if |currentContent| > 0 && |currentContent| + |transcript| + 2 > MAX_CHARS_PER_FILE {
        FlushIsDue(open, rest);
        ContentsCons(written, open, Finish([], Kept(0, rest)));
        FlushCurrent();
        open' := [];
      }
    }

    /** Puts the next transcript into the open file, or into one of its own. */
    method Place(transcript: string, ghost open: seq<string>, ghost rest: seq<string>) returns (ghost open': seq<string>)
      requires Holds(open) && rest != [] && rest[0] == transcript
      requires open != [] ==> |currentContent| + |transcript| + 2 <= MAX_CHARS_PER_FILE
      modifies this
      ensures Holds(open') && Outlook(open', rest[1..]) == old(Outlook(open, rest))
    {
      open' := open;
      if |transcript| > MAX_CHARS_PER_FILE {
        FlushCurrent();
        KeptOversized(rest);
        FinishOversized(Kept(0, rest));
        ContentsCons(written, [transcript], Finish([], Kept(0, rest[1..])));
        Write(transcript);
      } else {
        KeepOne(open, rest);
        if !(open == [] && transcript == "") {
          open' := open + [transcript];
        }
        currentContent := currentContent + (if currentContent != "" then SEPARATOR else "") + transcript;
      }
    }

    /** One turn of the loop. */
    method Add(transcript: string, ghost open: seq<string>, ghost rest: seq<string>, ghost files: seq<string>)
      returns (ghost open': seq<string>)
      requires Holds(open) && rest != [] && rest[0] == transcript && Outlook(open, rest) == files
      modifies this
      ensures Holds(open') && Outlook(open', rest[1..]) == files
    {
      open' := MakeRoom(transcript, open, rest);
      open' := Place(transcript, open', rest);
    }

    /** Closes the last file. */
    method Finalize(ghost open: seq<string>, ghost files: seq<string>)
      requires Holds(open) && Outlook(open, []) == files
      modifies this
      ensures written == files && fileIndex == |written| && outputFiles == FileNames(fileIndex)
    {
      LastFile(written, open);
      FlushCurrent();
    }

    /** The loop over all transcripts. */
    method SplitTranscripts(allTranscripts: seq<string>)
      requires outputFiles == [] && written == [] && currentContent == "" && fileIndex == 0
      modifies this
      ensures written == Files(allTranscripts)
      ensures fileIndex == |written| && outputFiles == FileNames(fileIndex)
      ensures |outputFiles| == |written| && Distinct(outputFiles)
    {
      ghost var open: seq<string> := [];
      ghost var rest, files := allTranscripts, Files(allTranscripts);
      assert Outlook(open, rest) == files by {
        assert written + files == files;
      }
      var i := 0;
      while i < |allTranscripts|
        invariant i <= |allTranscripts| && rest == allTranscripts[i..]
        invariant Holds(open) && Outlook(open, rest) == files
      {
        open := Add(allTranscripts[i], open, rest, files);
        rest := rest[1..];
        i := i + 1;
      }
      Finalize(open, files);
      NamesDiffer(fileIndex);
    }
  }

  lemma {:induction false} LastFile(written: seq<string>, open: seq<string>)
    ensures open != [] ==> written + Contents(Finish(open, [])) == written + [Join(open)]
    ensures open == [] ==> written + Contents(Finish(open, [])) == written
  {
    if open != [] {
      FinishFull(open, []);
      ContentsCons(written, open, []);
      assert written + [Join(open)] + Contents([]) == written + [Join(open)];
    } else {
      assert written + Contents([]) == written;
    }
  }

  lemma {:induction false} KeptOversized(rest: seq<string>)
    requires rest != [] && |rest[0]| > MAX_CHARS_PER_FILE
    ensures Kept(0, rest) != [] && Kept(0, rest)[0] == rest[0] && Kept(0, rest)[1..] == Kept(0, rest[1..])
  {
  }

  lemma {:induction false} ContentsCons(written: seq<string>, group: seq<string>, groups: seq<seq<string>>)
    ensures written + Contents([group] + groups) == written + [Join(group)] + Contents(groups)
  {
    assert Contents([group] + groups) == [Join(group)] + Contents(groups);
  }

  /** A transcript that fits joins the open file, unless both are empty. */
  lemma {:induction false} KeepOne(open: seq<string>, rest: seq<string>)
    requires rest != [] && |rest[0]| <= MAX_CHARS_PER_FILE && (open == [] <==> Join(open) == "")
    requires open != [] ==> |Join(open)| + |rest[0]| + 2 <= MAX_CHARS_PER_FILE
    ensures var open' := if open == [] && rest[0] == "" then [] else open + [rest[0]];
      && Join(open') == Join(open) + (if Join(open) != "" then SEPARATOR else "") + rest[0]
      && (open' == [] <==> Join(open') == "")
      && Finish(open, Kept(|Join(open)|, rest)) == Finish(open', Kept(|Join(open')|, rest[1..]))
  {
    var t := rest[0];
    if open == [] {
      assert [] + [t] == [t];
      if t != "" {
        FinishOpen(Kept(0, rest));
        assert Kept(0, rest)[1..] == Kept(|t|, rest[1..]);
      }
    } else {
      JoinConcat(open, [t]);
      var kept := Kept(|Join(open)|, rest);
      assert kept[0] == t && kept[1..] == Kept(|Join(open + [t])|, rest[1..]);
      FinishFits(open, kept);
    }
  }
}
