/** The blob files of one column family and the indexes kept over them. */
module Storage {
  import opened Types
  import opened Ordering

  /** The persistent part of a blob file's meta. */
  datatype Meta = Meta(number: nat, size: nat, entries: nat, level: nat, smallest: Key, largest: Key)

  datatype Slot = Slot(meta: Meta, obsolete: bool)

  type Files = map<nat, Slot>

  /** An entry of the multimap from smallest key to file. */
  datatype Start = Start(key: Key, number: nat)

  datatype Gone = Gone(number: nat, sequence: nat)

  datatype Bound = Unbounded | At(key: Key)

  datatype Range = Range(begin: Bound, end: Bound)

  // ---- what the operations do to the file map

  /** Adding a number that is already there changes nothing. */
  function AddedTo(files: Files, meta: Meta): Files {
    if meta.number in files then files else files[meta.number := Slot(meta, false)]
  }

  function MarkedIn(files: Files, number: nat): Files {
    if number in files then files[number := files[number].(obsolete := true)] else files
  }

  predicate Live(files: Files, number: nat) {
    number in files && !files[number].obsolete
  }

  // ---- agreement of the indexes

  predicate Named(files: Files) {
    forall n :: n in files ==> files[n].meta.number == n
  }

  predicate Sorted(le: Le, ranges: seq<Start>) {
    forall i, j :: 0 <= i < j < |ranges| ==> le(ranges[i].key, ranges[j].key)
  }

  predicate Distinct(ranges: seq<Start>) {
    forall i, j :: 0 <= i < j < |ranges| ==> ranges[i].number != ranges[j].number
  }

  /** The multimap holds the files of the map under their smallest keys, and nothing else. */
  predicate Indexes(files: Files, ranges: seq<Start>) {
    && (forall i :: 0 <= i < |ranges| ==>
          ranges[i].number in files && ranges[i].key == files[ranges[i].number].meta.smallest)
    && (forall n :: n in files ==> Start(files[n].meta.smallest, n) in ranges)
  }

  predicate RangesAgree(le: Le, files: Files, ranges: seq<Start>) {
    Sorted(le, ranges) && Distinct(ranges) && Indexes(files, ranges)
  }

  predicate Lists(obsolete: seq<Gone>, n: nat) {
    exists i :: 0 <= i < |obsolete| && obsolete[i].number == n
  }

  predicate Unique(obsolete: seq<Gone>) {
    forall i, j :: 0 <= i < j < |obsolete| ==> obsolete[i].number != obsolete[j].number
  }

  ghost predicate ObsoleteAgree(files: Files, obsolete: seq<Gone>) {
    && Unique(obsolete)
    && (forall n :: Lists(obsolete, n) <==> n in files && files[n].obsolete)
  }

  function AtLevel(files: Files, level: nat): set<nat> {
    set n | n in files && !files[n].obsolete && files[n].meta.level == level
  }

  predicate LevelsAgree(files: Files, levels: seq<int>) {
    && (forall n :: n in files ==> files[n].meta.level < |levels|)
    && (forall l :: 0 <= l < |levels| ==> levels[l] == |AtLevel(files, l)|)
  }

  /** All four indexes describe the same set of files. */
  ghost predicate Agree(le: Le, files: Files, ranges: seq<Start>, obsolete: seq<Gone>, levels: seq<int>) {
    && Named(files)
    && RangesAgree(le, files, ranges)
    && ObsoleteAgree(files, obsolete)
    && LevelsAgree(files, levels)
  }

  // ---- the multimap

  /** Number of entries with a key not above k. */
  function UpperBound(le: Le, ranges: seq<Start>, k: Key): (r: nat)
    requires Total(le) && Sorted(le, ranges)
    ensures r <= |ranges|
    ensures forall j :: 0 <= j < |ranges| ==> (j < r <==> le(ranges[j].key, k))
  {
    if ranges == [] then 0
    else
      var last := |ranges| - 1;
      if le(ranges[last].key, k) then |ranges| else UpperBound(le, ranges[..last], k)
  }

  /** Number of entries with a key below k. */
  function LowerBound(le: Le, ranges: seq<Start>, k: Key): (r: nat)
    requires Total(le) && Sorted(le, ranges)
    ensures r <= |ranges|
    ensures forall j :: 0 <= j < |ranges| ==> (j < r <==> !le(k, ranges[j].key))
  {
    if ranges == [] then 0
    else
      var last := |ranges| - 1;
      if !le(k, ranges[last].key) then |ranges| else LowerBound(le, ranges[..last], k)
  }

  lemma BoundsOrdered(le: Le, ranges: seq<Start>, a: Key, b: Key)
    requires Total(le) && Sorted(le, ranges) && le(a, b)
    ensures LowerBound(le, ranges, a) <= UpperBound(le, ranges, b)
  {
    var lo, hi := LowerBound(le, ranges, a), UpperBound(le, ranges, b);
    assert hi < lo ==> !le(a, ranges[hi].key);
  }

  function Spliced<T>(s: seq<T>, at: nat, x: T): (r: seq<T>)
    requires at <= |s|
    ensures |r| == |s| + 1
    ensures forall i :: 0 <= i < |r| ==> r[i] == if i < at then s[i] else if i == at then x else s[i - 1]
  {
    s[..at] + [x] + s[at..]
  }

  /** The multimap inserts after all entries with the same key. */
  function Inserted(le: Le, ranges: seq<Start>, x: Start): (r: seq<Start>)
    requires Total(le) && Sorted(le, ranges)
    ensures Sorted(le, r)
  {
    Spliced(ranges, UpperBound(le, ranges, x.key), x)
  }

  function Without<T>(s: seq<T>, i: nat): seq<T>
    requires i < |s|
  {
    s[..i] + s[i + 1..]
  }

  lemma SpliceDistinct(files: Files, ranges: seq<Start>, at: nat, x: Start)
    requires at <= |ranges| && Distinct(ranges) && Indexes(files, ranges) && x.number !in files
    ensures Distinct(Spliced(ranges, at, x))
  {
  }

  lemma SpliceHas(ranges: seq<Start>, at: nat, x: Start, y: Start)
    requires at <= |ranges|
    ensures y in Spliced(ranges, at, x) <==> y == x || y in ranges
  {
    var r := Spliced(ranges, at, x);
    assert r[at] == x;
    if y in ranges {
      var i :| 0 <= i < |ranges| && ranges[i] == y;
      assert r[if i < at then i else i + 1] == y;
    }
  }

  lemma SpliceIndexes(files: Files, ranges: seq<Start>, at: nat, meta: Meta)
    requires at <= |ranges| && Indexes(files, ranges) && meta.number !in files
    ensures Indexes(AddedTo(files, meta), Spliced(ranges, at, Start(meta.smallest, meta.number)))
  {
    var x := Start(meta.smallest, meta.number);
    var r, files' := Spliced(ranges, at, x), AddedTo(files, meta);
    forall n | n in files'
      ensures Start(files'[n].meta.smallest, n) in r
    {
      SpliceHas(ranges, at, x, Start(files'[n].meta.smallest, n));
    }
    forall i | 0 <= i < |r|
      ensures r[i].number in files' && r[i].key == files'[r[i].number].meta.smallest
    {
    }
  }

  lemma SpliceTwice(files: Files, ranges: seq<Start>, at: nat, meta: Meta)
    requires at <= |ranges| && Indexes(files, ranges) && meta.number in files
    ensures !Distinct(Spliced(ranges, at, Start(meta.smallest, meta.number)))
  {
    var r := Spliced(ranges, at, Start(meta.smallest, meta.number));
    var i :| 0 <= i < |ranges| && ranges[i] == Start(files[meta.number].meta.smallest, meta.number);
    var j := if i < at then i else i + 1;
    assert r[j].number == meta.number == r[at].number;
  }

  /** Adding a file keeps the indexes in agreement exactly when its number is new. */
  lemma AddAgrees(le: Le, files: Files, ranges: seq<Start>, obsolete: seq<Gone>, levels: seq<int>, meta: Meta,
                  ranges': seq<Start>, at: nat)
    requires Agree(le, files, ranges, obsolete, levels) && meta.level < |levels|
    requires at <= |ranges| && ranges' == Spliced(ranges, at, Start(meta.smallest, meta.number))
    requires Sorted(le, ranges')
    ensures Agree(le, AddedTo(files, meta), ranges', obsolete, levels[meta.level := levels[meta.level] + 1])
            <==> meta.number !in files
  {
    if meta.number in files {
      SpliceTwice(files, ranges, at, meta);
    } else {
      SpliceDistinct(files, ranges, at, Start(meta.smallest, meta.number));
      SpliceIndexes(files, ranges, at, meta);
      AddLevels(files, levels, meta);
      AddLists(files, obsolete, meta);
    }
  }

  lemma AddKeepsAgreement(le: Le, files: Files, ranges: seq<Start>, obsolete: seq<Gone>, levels: seq<int>, meta: Meta,
                          files': Files, ranges': seq<Start>, levels': seq<int>)
    requires Total(le) && Agree(le, files, ranges, obsolete, levels) && meta.level < |levels|
    requires files' == AddedTo(files, meta)
    requires ranges' == Inserted(le, ranges, Start(meta.smallest, meta.number))
    requires levels' == levels[meta.level := levels[meta.level] + 1]
    ensures Agree(le, files', ranges', obsolete, levels') <==> meta.number !in files
  {
    AddAgrees(le, files, ranges, obsolete, levels, meta, ranges', UpperBound(le, ranges, meta.smallest));
  }

  lemma AddLists(files: Files, obsolete: seq<Gone>, meta: Meta)
    requires ObsoleteAgree(files, obsolete) && meta.number !in files
    ensures ObsoleteAgree(AddedTo(files, meta), obsolete)
  {
  }

  lemma WithoutHas<T>(s: seq<T>, i: nat, j: nat)
    requires i < |s| && j < |s| && i != j
    ensures s[j] in Without(s, i)
  {
    assert Without(s, i)[if j < i then j else j - 1] == s[j];
  }

  lemma EraseIndexes(files: Files, ranges: seq<Start>, i: nat)
    requires Distinct(ranges) && Indexes(files, ranges) && i < |ranges|
    ensures Indexes(files - {ranges[i].number}, Without(ranges, i))
  {
    var r, rest := Without(ranges, i), files - {ranges[i].number};
    forall n | n in rest
      ensures Start(rest[n].meta.smallest, n) in r
    {
      var j :| 0 <= j < |ranges| && ranges[j] == Start(files[n].meta.smallest, n);
      WithoutHas(ranges, i, j);
    }
  }

  lemma EraseAgrees(le: Le, files: Files, ranges: seq<Start>, i: nat)
    requires RangesAgree(le, files, ranges) && i < |ranges|
    ensures RangesAgree(le, files - {ranges[i].number}, Without(ranges, i))
  {
    EraseIndexes(files, ranges, i);
  }

  // ---- level counts

  lemma AtLevelAdded(files: Files, meta: Meta, l: nat)
    requires meta.number !in files
    ensures |AtLevel(AddedTo(files, meta), l)| == |AtLevel(files, l)| + if l == meta.level then 1 else 0
  {
    assert AtLevel(AddedTo(files, meta), l) == AtLevel(files, l) + if l == meta.level then {meta.number} else {};
  }

  lemma AddLevels(files: Files, levels: seq<int>, meta: Meta)
    requires LevelsAgree(files, levels) && meta.number !in files && meta.level < |levels|
    ensures LevelsAgree(AddedTo(files, meta), levels[meta.level := levels[meta.level] + 1])
  {
    forall l: nat | l < |levels|
      ensures |AtLevel(AddedTo(files, meta), l)| == |AtLevel(files, l)| + if l == meta.level then 1 else 0
    {
      AtLevelAdded(files, meta, l);
    }
  }

  lemma MarkLevels(files: Files, levels: seq<int>, n: nat)
    requires LevelsAgree(files, levels) && Live(files, n)
    ensures var level := files[n].meta.level;
            LevelsAgree(MarkedIn(files, n), levels[level := levels[level] - 1])
  {
    forall l: nat | l < |levels|
      ensures AtLevel(MarkedIn(files, n), l) == AtLevel(files, l) - if l == files[n].meta.level then {n} else {}
    {
    }
  }

  lemma EraseLevels(files: Files, levels: seq<int>, n: nat)
    requires LevelsAgree(files, levels) && n in files && files[n].obsolete
    ensures LevelsAgree(files - {n}, levels)
  {
    forall l: nat | l < |levels|
      ensures AtLevel(files - {n}, l) == AtLevel(files, l)
    {
    }
  }

  // ---- the obsolete list

  lemma MarkLists(files: Files, obsolete: seq<Gone>, n: nat, sequence: nat)
    requires ObsoleteAgree(files, obsolete) && n in files
    ensures ObsoleteAgree(MarkedIn(files, n), obsolete + [Gone(n, sequence)]) <==> !files[n].obsolete
  {
    var o := obsolete + [Gone(n, sequence)];
    assert o[|obsolete|].number == n;
    forall m: nat ensures Lists(o, m) <==> Lists(obsolete, m) || m == n {
      if Lists(obsolete, m) {
        var i :| 0 <= i < |obsolete| && obsolete[i].number == m;
        assert o[i].number == m;
      }
    }
    if files[n].obsolete {
      assert Lists(obsolete, n);
      var i :| 0 <= i < |obsolete| && obsolete[i].number == n;
      assert o[i].number == o[|obsolete|].number;
    }
  }

  lemma EraseLists(files: Files, obsolete: seq<Gone>, i: nat)
    requires ObsoleteAgree(files, obsolete) && i < |obsolete|
    ensures ObsoleteAgree(files - {obsolete[i].number}, Without(obsolete, i))
  {
    var o := Without(obsolete, i);
    forall m: nat ensures Lists(o, m) <==> Lists(obsolete, m) && m != obsolete[i].number {
      if Lists(obsolete, m) && m != obsolete[i].number {
        var j :| 0 <= j < |obsolete| && obsolete[j].number == m;
        assert o[if j < i then j else j - 1].number == m;
      }
      if Lists(o, m) {
        var j :| 0 <= j < |o| && o[j].number == m;
        assert obsolete[if j < i then j else j + 1].number == m;
      }
    }
  }

  /** Taking out an obsolete file, its list entry and its multimap entry. */
  lemma PurgeAgrees(le: Le, files: Files, ranges: seq<Start>, obsolete: seq<Gone>, levels: seq<int>, i: nat)
    requires Agree(le, files, ranges, obsolete, levels) && i < |obsolete|
    ensures obsolete[i].number in files
    ensures ObsoleteAgree(files - {obsolete[i].number}, Without(obsolete, i))
    ensures LevelsAgree(files - {obsolete[i].number}, levels)
  {
    assert Lists(obsolete, obsolete[i].number);
    EraseLists(files, obsolete, i);
    EraseLevels(files, levels, obsolete[i].number);
  }

  /** Entries that no snapshot can see: obsolete before the oldest one. */
  function Due(obsolete: seq<Gone>, oldest: nat): (r: seq<nat>)
    ensures forall n :: n in r <==> exists i :: 0 <= i < |obsolete| && obsolete[i].number == n && oldest > obsolete[i].sequence
  {
    if obsolete == [] then []
    else
      var last := |obsolete| - 1;
      Due(obsolete[..last], oldest) + if oldest > obsolete[last].sequence then [obsolete[last].number] else []
  }

  function Undue(obsolete: seq<Gone>, oldest: nat): (r: seq<Gone>)
    ensures forall g :: g in r <==> g in obsolete && oldest <= g.sequence
  {
    if obsolete == [] then []
    else
      var last := |obsolete| - 1;
      Undue(obsolete[..last], oldest) + if oldest > obsolete[last].sequence then [] else [obsolete[last]]
  }

  function ToSet(s: seq<nat>): (r: set<nat>)
    ensures forall n :: n in r <==> n in s
  {
    set n | n in s
  }

  /** The purge loop after its first `done` entries: the list, the position in it, the names and the files. */
  predicate Purging(was: seq<Gone>, files0: Files, oldest: nat, done: nat, now: seq<Gone>, i: nat, names: seq<nat>,
                    files: Files)
    requires done <= |was|
  {
    && now == Undue(was[..done], oldest) + was[done..]
    && i == |Undue(was[..done], oldest)|
    && names == Due(was[..done], oldest)
    && files == files0 - ToSet(names)
  }

  lemma PurgeStep(was: seq<Gone>, files0: Files, oldest: nat, done: nat, now: seq<Gone>, i: nat, names: seq<nat>,
                  files: Files)
    requires done < |was| && Purging(was, files0, oldest, done, now, i, names, files)
    ensures i < |now| && now[i] == was[done]
    ensures if oldest > now[i].sequence
            then Purging(was, files0, oldest, done + 1, Without(now, i), i, names + [now[i].number], files - {now[i].number})
            else Purging(was, files0, oldest, done + 1, now, i + 1, names, files)
  {
    assert was[..done + 1][..done] == was[..done];
    if oldest > now[i].sequence {
      assert Without(now, i) == Undue(was[..done], oldest) + was[done + 1..];
      assert files0 - ToSet(names + [now[i].number]) == files - {now[i].number};
    } else {
      assert now == Undue(was[..done], oldest) + [now[i]] + was[done + 1..];
    }
  }

  // ---- range queries

  predicate NotBefore(le: Le, bound: Bound, k: Key) {
    bound.Unbounded? || le(bound.key, k)
  }

  /** The whole key range of the file lies in the query; a file without keys only meets an open end. */
  predicate Inside(le: Le, meta: Meta, range: Range, includeEnd: bool) {
    && NotBefore(le, range.begin, meta.smallest)
    && (range.end.Unbounded? ||
        (meta.largest != [] &&
         if includeEnd then le(meta.largest, range.end.key) else Less(le, meta.largest, range.end.key)))
  }

  predicate Matches(le: Le, files: Files, n: nat, range: Range, includeEnd: bool) {
    Live(files, n) && Inside(le, files[n].meta, range, includeEnd)
  }

  predicate NoRepeats(s: seq<nat>) {
    forall i, j :: 0 <= i < j < |s| ==> s[i] != s[j]
  }

  /** Files written by this version have a smallest key not above their largest. */
  predicate KeyRanges(le: Le, files: Files) {
    forall n :: n in files && files[n].meta.largest != [] ==> le(files[n].meta.smallest, files[n].meta.largest)
  }

  predicate Ordered(le: Le, range: Range) {
    range.begin.Unbounded? || range.end.Unbounded? || le(range.begin.key, range.end.key)
  }

  /** Outside the visited part of the multimap there is nothing to find. */
  lemma RangeEdges(le: Le, files: Files, ranges: seq<Start>, range: Range, includeEnd: bool, j: nat)
    requires Total(le) && RangesAgree(le, files, ranges) && KeyRanges(le, files) && j < |ranges|
    requires Matches(le, files, ranges[j].number, range, includeEnd)
    ensures range.begin.At? ==> LowerBound(le, ranges, range.begin.key) <= j
    ensures range.end.At? ==> j < UpperBound(le, ranges, range.end.key)
  {
    var meta := files[ranges[j].number].meta;
    if range.end.At? {
      assert le(meta.smallest, meta.largest) && le(meta.largest, range.end.key);
      assert le(ranges[j].key, range.end.key);
    }
  }

  class BlobStorage {
    const le: Le
    var files: Files
    var ranges: seq<Start>
    var obsolete: seq<Gone>
    var levels: seq<int>

    ghost predicate Agrees()
      reads this
    {
      Total(le) && Agree(le, files, ranges, obsolete, levels)
    }

    constructor (le: Le, numLevels: nat)
      requires Total(le)
      ensures Agrees() && files == map[] && |levels| == numLevels && this.le == le
    {
      this.le := le;
      files, ranges, obsolete := map[], [], [];
      levels := seq(numLevels, _ => 0);
      new;
      assert forall l: nat :: AtLevel(files, l) == {};
    }

    method AddBlobFile(meta: Meta)
      requires Agrees() && meta.level < |levels|
      modifies this
      ensures files == AddedTo(old(files), meta)
      ensures ranges == Inserted(le, old(ranges), Start(meta.smallest, meta.number))
      ensures obsolete == old(obsolete)
      ensures levels == old(levels)[meta.level := old(levels)[meta.level] + 1]
      ensures Agrees() <==> meta.number !in old(files)
    {
      ghost var files0, ranges0, levels0 := files, ranges, levels;
      ranges := Inserted(le, ranges, Start(meta.smallest, meta.number));
      if meta.number !in files {
        files := files[meta.number := Slot(meta, false)];
      }
      levels := levels[meta.level := levels[meta.level] + 1];
      AddKeepsAgreement(le, files0, ranges0, obsolete, levels0, meta, files, ranges, levels);
    }

    method MarkFileObsolete(number: nat, sequence: nat) returns (found: bool)
      requires Agrees()
      modifies this
      ensures found <==> number in old(files)
      ensures files == MarkedIn(old(files), number) && ranges == old(ranges)
      ensures obsolete == if found then old(obsolete) + [Gone(number, sequence)] else old(obsolete)
      ensures levels == if found then var l := old(files)[number].meta.level; old(levels)[l := old(levels)[l] - 1]
                        else old(levels)
      ensures Agrees() <==> !(found && old(files)[number].obsolete)
    {
      if number !in files {
        return false;
      }
      MarkLists(files, obsolete, number, sequence);
      if !files[number].obsolete {
        MarkLevels(files, levels, number);
      }
      obsolete := obsolete + [Gone(number, sequence)];
      var level := files[number].meta.level;
      files := files[number := files[number].(obsolete := true)];
      levels := levels[level := levels[level] - 1];
      return true;
    }

    /** Takes the file out of the map and out of the multimap, leaving the obsolete list to the caller. */
    method RemoveFile(number: nat) returns (removed: bool)
      requires Total(le) && Named(files) && RangesAgree(le, files, ranges)
      modifies this`files, this`ranges
      ensures removed <==> number in old(files)
      ensures files == old(files) - {number}
      ensures Named(files) && RangesAgree(le, files, ranges)
    {
      if number !in files {
        assert files == files - {number};
        return false;
      }
      var k := files[number].meta.smallest;
      var i, hi := LowerBound(le, ranges, k), UpperBound(le, ranges, k);
      ghost var at :| 0 <= at < |ranges| && ranges[at] == Start(k, number);
      while i < hi && ranges[i].number != number
        invariant i <= at < hi <= |ranges|
      {
        i := i + 1;
      }
      EraseAgrees(le, files, ranges, i);
      ranges := Without(ranges, i);
      files := files - {number};
      return true;
    }

    method RemoveObsolete(i: nat)
      requires Agrees() && i < |obsolete|
      modifies this
      ensures Agrees()
      ensures files == old(files) - {old(obsolete)[i].number} && obsolete == Without(old(obsolete), i)
      ensures levels == old(levels)
    {
      PurgeAgrees(le, files, ranges, obsolete, levels, i);
      var removed := RemoveFile(obsolete[i].number);
      assert removed;
      obsolete := Without(obsolete, i);
    }

    /** Removes the obsolete files that the oldest snapshot cannot see, and no others. */
    method GetObsoleteFiles(oldest: nat) returns (names: seq<nat>)
      requires Agrees()
      modifies this
      ensures Agrees()
      ensures names == Due(old(obsolete), oldest)
      ensures obsolete == Undue(old(obsolete), oldest)
      ensures files == old(files) - ToSet(names)
      ensures levels == old(levels)
    {
      names := [];
      var i := 0;
      ghost var was, files0, done := obsolete, files, 0;
      assert was[..0] == [];
      while i < |obsolete|
        invariant done <= |was| && i <= |obsolete|
        invariant Purging(was, files0, oldest, done, obsolete, i, names, files)
        invariant levels == old(levels)
        invariant Agrees()
        decreases |was| - done
      {
        PurgeStep(was, files0, oldest, done, obsolete, i, names, files);
        if oldest > obsolete[i].sequence {
          names := names + [obsolete[i].number];
          RemoveObsolete(i);
        } else {
          i := i + 1;
        }
        done := done + 1;
      }
      assert was[..done] == was && was[done..] == [];
    }

    /** One range: exactly the live files inside it, each once. */
    method FilesInRange(range: Range, includeEnd: bool) returns (numbers: seq<nat>)
      requires Agrees() && KeyRanges(le, files) && Ordered(le, range)
      ensures forall n :: n in numbers <==> Matches(le, files, n, range, includeEnd)
      ensures NoRepeats(numbers)
    {
      var it := if range.begin.At? then LowerBound(le, ranges, range.begin.key) else 0;
      var stop := if range.end.At? then UpperBound(le, ranges, range.end.key) else |ranges|;
      ghost var first := it;
      numbers := [];
      if range.begin.At? && range.end.At? {
        BoundsOrdered(le, ranges, range.begin.key, range.end.key);
      }
      while it < stop
        invariant first <= it <= stop
        invariant forall n :: n in numbers <==>
            exists j :: first <= j < it && ranges[j].number == n && Matches(le, files, n, range, includeEnd)
        invariant NoRepeats(numbers)
      {
        var meta := files[ranges[it].number].meta;
        if files[ranges[it].number].obsolete || (meta.largest == [] && range.end.At?) {
        } else if range.end.Unbounded? || (includeEnd && le(meta.largest, range.end.key)) ||
                  (!includeEnd && Less(le, meta.largest, range.end.key)) {
          assert meta.number == ranges[it].number && meta.number !in numbers;
          numbers := numbers + [meta.number];
        }
        it := it + 1;
      }
      forall n | Matches(le, files, n, range, includeEnd)
        ensures n in numbers
      {
        var j :| 0 <= j < |ranges| && ranges[j] == Start(files[n].meta.smallest, n);
        RangeEdges(le, files, ranges, range, includeEnd, j);
      }
    }

    /** All ranges in turn: a file is listed once for every range it lies in. */
    method GetBlobFilesInRanges(queries: seq<Range>, includeEnd: bool) returns (numbers: seq<nat>)
      requires Agrees() && KeyRanges(le, files)
      requires forall i :: 0 <= i < |queries| ==> Ordered(le, queries[i])
      ensures forall n :: multiset(numbers)[n] == Hits(le, files, n, queries, includeEnd)
    {
      numbers := [];
      for i := 0 to |queries|
        invariant forall n :: multiset(numbers)[n] == Hits(le, files, n, queries[..i], includeEnd)
      {
        var found := FilesInRange(queries[i], includeEnd);
        assert queries[..i + 1][..i] == queries[..i];
        forall n ensures multiset(found)[n] == if Matches(le, files, n, queries[i], includeEnd) then 1 else 0 {
          CountOnce(found, n);
        }
        numbers := numbers + found;
      }
      assert queries[..|queries|] == queries;
    }
  }

  /** How many of the queries a live file lies in. */
  function Hits(le: Le, files: Files, n: nat, queries: seq<Range>, includeEnd: bool): nat {
    if queries == [] then 0
    else
      var last := |queries| - 1;
      Hits(le, files, n, queries[..last], includeEnd) + if Matches(le, files, n, queries[last], includeEnd) then 1 else 0
  }

  lemma {:induction false} CountOnce(s: seq<nat>, n: nat)
    requires NoRepeats(s)
    ensures multiset(s)[n] == if n in s then 1 else 0
  {
    if s != [] {
      var last := |s| - 1;
      CountOnce(s[..last], n);
      assert s == s[..last] + [s[last]];
    }
  }
}
