/**
  The bounded directory walk: a depth-first scan that stops after a fixed number of
  entries, does not descend below a fixed depth, and keeps the ten largest files.
 */
module StorageWalkSpec {
  import opened StringOrder

  /** What a directory listing yields.  A directory that cannot be listed still has contents,
      and an entry whose status cannot be read still has a size. */
  datatype Entry =
    | File(path: string, size: int)
    | Directory(readable: bool, children: seq<Entry>)
    | Symlink
    | Special
    | Unstatable(bytes: nat)

  datatype Found = Found(path: string, bytes: nat)

  datatype Limits = Limits(maxEntries: int, maxDepth: int)

  /** The running totals; `seen` lists every file counted so far. */
  datatype Tally = Tally(
    files: nat,
    directories: nat,
    bytes: nat,
    entries: nat,
    truncated: bool,
    depthLimited: nat,
    largest: seq<Found>,
    seen: seq<Found>)

  const KEPT: nat := 10

  function Size(size: int): nat { if size < 0 then 0 else size }

  /** Larger files first, then by path. */
  predicate Before(a: Found, b: Found) { a.bytes > b.bytes || (a.bytes == b.bytes && Less(a.path, b.path)) }

  function Insert(x: Found, s: seq<Found>): (r: seq<Found>)
    ensures |r| == |s| + 1 && multiset(r) == multiset(s) + multiset{x}
  {
    if s == [] then [x]
    else if Before(x, s[0]) then [x] + s
    else
      assert s == [s[0]] + s[1..];
      [s[0]] + Insert(x, s[1..])
  }

  function Take(s: seq<Found>, k: nat): seq<Found> { if |s| <= k then s else s[..k] }

  function Counted(t: Tally, path: string, size: nat): Tally {
    var found := Found(path, size);
    t.(files := t.files + 1, bytes := t.bytes + size, seen := t.seen + [found],
       largest := Take(Insert(found, t.largest), KEPT))
  }

  function VisitAll(limits: Limits, children: seq<Entry>, depth: nat, t: Tally): Tally
    decreases children
  {
    if children == [] then t
    else if t.entries >= limits.maxEntries then t.(truncated := true)
    else
      var one := VisitOne(limits, children[0], depth, t.(entries := t.entries + 1));
      VisitAll(limits, children[1..], depth, one)
  }

  function VisitOne(limits: Limits, entry: Entry, depth: nat, t: Tally): Tally
    decreases entry
  {
    match entry
    case File(path, size) => Counted(t, path, Size(size))
    case Directory(readable, children) =>
      var entered := t.(directories := t.directories + 1);
      if depth >= limits.maxDepth then entered.(depthLimited := entered.depthLimited + 1)
      else if readable then VisitAll(limits, children, depth + 1, entered)
      else entered
    case _ => t
  }

  const EMPTY := Tally(0, 0, 0, 0, false, 0, [], [])

  function Scan(limits: Limits, root: seq<Entry>): Tally { VisitAll(limits, root, 0, EMPTY) }

  predicate ScanComplete(t: Tally) { !t.truncated && t.depthLimited == 0 }

  // ----- the files that are really there

  function Bytes(entries: seq<Entry>): nat
    decreases entries
  {
    if entries == [] then 0 else EntryBytes(entries[0]) + Bytes(entries[1..])
  }

  function EntryBytes(entry: Entry): nat
    decreases entry
  {
    match entry
    case File(_, size) => Size(size)
    case Directory(_, children) => Bytes(children)
    case Unstatable(bytes) => bytes
    case _ => 0
  }

  /** Bytes below directories that cannot be listed, and of entries that cannot be read. */
  function Hidden(entries: seq<Entry>): nat
    decreases entries
  {
    if entries == [] then 0 else EntryHidden(entries[0]) + Hidden(entries[1..])
  }

  function EntryHidden(entry: Entry): nat
    decreases entry
  {
    match entry
    case Directory(readable, children) => if readable then Hidden(children) else Bytes(children)
    case Unstatable(bytes) => bytes
    case _ => 0
  }

  /** The files a walk without limits would meet, in the order it would meet them. */
  function Visible(entries: seq<Entry>): seq<Found>
    decreases entries
  {
    if entries == [] then [] else EntryVisible(entries[0]) + Visible(entries[1..])
  }

  function EntryVisible(entry: Entry): seq<Found>
    decreases entry
  {
    match entry
    case File(path, size) => [Found(path, Size(size))]
    case Directory(readable, children) => if readable then Visible(children) else []
    case _ => []
  }

  function Total(s: seq<Found>): nat {
    if s == [] then 0 else Total(s[..|s| - 1]) + s[|s| - 1].bytes
  }

  // ----- the ten largest

  /** All files in order: the full sort that the running list stands for. */
  function Ordered(seen: seq<Found>): (r: seq<Found>)
    ensures multiset(r) == multiset(seen)
  {
    if seen == [] then []
    else
      assert seen == seen[..|seen| - 1] + [seen[|seen| - 1]];
      Insert(seen[|seen| - 1], Ordered(seen[..|seen| - 1]))
  }

  ghost predicate InOrder(s: seq<Found>) { forall j, k :: 0 <= j < k < |s| ==> !Before(s[k], s[j]) }

  lemma BeforeOrders(a: Found, b: Found, c: Found)
    ensures !(Before(a, b) && Before(b, a))
    ensures !Before(b, a) && !Before(c, b) ==> !Before(c, a)
  {
    LessAsymmetric(a.path, b.path);
    LessTotal(a.path, b.path);
    LessTotal(b.path, c.path);
    LessAsymmetric(a.path, c.path);
    if Less(a.path, b.path) && Less(b.path, c.path) { LessTransitive(a.path, b.path, c.path); }
  }

  lemma {:induction false} InsertKeepsOrder(x: Found, s: seq<Found>)
    requires InOrder(s)
    ensures InOrder(Insert(x, s))
  {
    if s != [] {
      var rest := s[1..];
      assert forall k :: 0 <= k < |rest| ==> rest[k] == s[k + 1];
      if Before(x, s[0]) {
        BeforeOrders(x, s[0], s[0]);
        forall k | 0 <= k < |s| ensures !Before(s[k], x) {
          BeforeOrders(x, s[0], s[k]);
        }
      } else {
        InsertKeepsOrder(x, rest);
        var tail := Insert(x, rest);
        forall k | 0 <= k < |tail| ensures !Before(tail[k], s[0]) {
          assert tail[k] in multiset(tail);
          assert tail[k] == x || tail[k] in rest;
        }
      }
    }
  }

  lemma {:induction false} OrderedIsInOrder(seen: seq<Found>)
    ensures InOrder(Ordered(seen))
  {
    if seen != [] {
      OrderedIsInOrder(seen[..|seen| - 1]);
      InsertKeepsOrder(seen[|seen| - 1], Ordered(seen[..|seen| - 1]));
    }
  }

  lemma TakeCons(x: Found, s: seq<Found>, k: nat)
    requires k > 0
    ensures Take([x] + s, k) == [x] + Take(s, k - 1)
  {
  }

  /** The new one goes first. */
  lemma TakeInsertFirst(x: Found, s: seq<Found>, k: nat)
    requires k > 0 && (s == [] || Before(x, s[0]))
    ensures Take(Insert(x, Take(s, k)), k) == Take(Insert(x, s), k)
  {
    TakeCons(x, Take(s, k), k);
    TakeCons(x, s, k);
  }

  /** The new one goes further back. */
  lemma TakeInsertLater(x: Found, head: Found, rest: seq<Found>, k: nat)
    requires k > 0 && !Before(x, head)
    requires Take(Insert(x, Take(rest, k - 1)), k - 1) == Take(Insert(x, rest), k - 1)
    ensures Take(Insert(x, Take([head] + rest, k)), k) == Take(Insert(x, [head] + rest), k)
  {
    TakeCons(head, rest, k);
    InsertLater(x, head, rest);
    InsertLater(x, head, Take(rest, k - 1));
    TakeCons(head, Insert(x, Take(rest, k - 1)), k);
    TakeCons(head, Insert(x, rest), k);
  }

  lemma InsertLater(x: Found, head: Found, rest: seq<Found>)
    requires !Before(x, head)
    ensures Insert(x, [head] + rest) == [head] + Insert(x, rest)
  {
    assert ([head] + rest)[1..] == rest;
  }

  /** What falls off the end cannot come back. */
  lemma {:induction false} TakeInsert(x: Found, s: seq<Found>, k: nat)
    ensures Take(Insert(x, Take(s, k)), k) == Take(Insert(x, s), k)
  {
    if k > 0 {
      if s == [] || Before(x, s[0]) {
        TakeInsertFirst(x, s, k);
      } else {
        TakeInsert(x, s[1..], k - 1);
        TakeInsertLater(x, s[0], s[1..], k);
        assert [s[0]] + s[1..] == s;
      }
    }
  }

  // ----- what holds throughout a walk

  /** The list is the first ten of the full sort, and the totals are those of the files counted. */
  ghost predicate Accurate(largest: seq<Found>, seen: seq<Found>, bytes: nat, files: nat) {
    largest == Take(Ordered(seen), KEPT) && bytes == Total(seen) && files == |seen|
  }

  ghost predicate Sound(limits: Limits, t: Tally) {
    Accurate(t.largest, t.seen, t.bytes, t.files) && (t.entries == 0 || t.entries <= limits.maxEntries)
  }

  lemma AccurateAfterOne(largest: seq<Found>, seen: seq<Found>, bytes: nat, files: nat, found: Found)
    requires Accurate(largest, seen, bytes, files)
    ensures Accurate(Take(Insert(found, largest), KEPT), seen + [found], bytes + found.bytes, files + 1)
  {
    var more := seen + [found];
    assert more[..|more| - 1] == seen;
    TakeInsert(found, Ordered(seen), KEPT);
  }

  lemma CountedKeeps(limits: Limits, t: Tally, path: string, size: nat)
    requires Sound(limits, t)
    ensures Sound(limits, Counted(t, path, size))
  {
    AccurateAfterOne(t.largest, t.seen, t.bytes, t.files, Found(path, size));
  }

  lemma {:induction false} VisitAllKeeps(limits: Limits, children: seq<Entry>, depth: nat, t: Tally)
    returns (r: Tally)
    requires Sound(limits, t)
    ensures r == VisitAll(limits, children, depth, t) && Sound(limits, r)
    decreases children
  {
    if children == [] {
      r := t;
    } else if t.entries >= limits.maxEntries {
      r := t.(truncated := true);
    } else {
      var one := VisitOneKeeps(limits, children[0], depth, t.(entries := t.entries + 1));
      r := VisitAllKeeps(limits, children[1..], depth, one);
    }
  }

  lemma {:induction false} VisitOneKeeps(limits: Limits, entry: Entry, depth: nat, t: Tally)
    returns (r: Tally)
    requires Sound(limits, t)
    ensures r == VisitOne(limits, entry, depth, t) && Sound(limits, r)
    decreases entry
  {
    r := t;
    match entry
    case File(path, size) =>
      CountedKeeps(limits, t, path, Size(size));
      r := Counted(t, path, Size(size));
    case Directory(readable, children) =>
      var entered := t.(directories := t.directories + 1);
      if depth >= limits.maxDepth {
        r := entered.(depthLimited := entered.depthLimited + 1);
      } else if readable {
        r := VisitAllKeeps(limits, children, depth + 1, entered);
      } else {
        r := entered;
      }
    case _ =>
  }

  /** The totals only grow, and a limit once reached stays reached. */
  ghost predicate Grows(before: Tally, after: Tally) {
    && before.bytes <= after.bytes && before.depthLimited <= after.depthLimited
    && (before.truncated ==> after.truncated)
  }

  lemma {:induction false} VisitAllBytes(limits: Limits, children: seq<Entry>, depth: nat, t: Tally)
    ensures var r := VisitAll(limits, children, depth, t);
      && Grows(t, r)
      && r.bytes + Hidden(children) <= t.bytes + Bytes(children)
      && (ScanComplete(r) ==> r.bytes + Hidden(children) == t.bytes + Bytes(children))
    decreases children
  {
    HiddenIsThere(children);
    if children != [] && t.entries < limits.maxEntries {
      var next := t.(entries := t.entries + 1);
      VisitOneBytes(limits, children[0], depth, next);
      VisitAllBytes(limits, children[1..], depth, VisitOne(limits, children[0], depth, next));
    }
  }

  lemma {:induction false} VisitOneBytes(limits: Limits, entry: Entry, depth: nat, t: Tally)
    ensures var r := VisitOne(limits, entry, depth, t);
      && Grows(t, r)
      && r.bytes + EntryHidden(entry) <= t.bytes + EntryBytes(entry)
      && (ScanComplete(r) ==> r.bytes + EntryHidden(entry) == t.bytes + EntryBytes(entry))
    decreases entry
  {
    EntryHiddenIsThere(entry);
    match entry
    case Directory(readable, children) =>
      if depth < limits.maxDepth && readable {
        VisitAllBytes(limits, children, depth + 1, t.(directories := t.directories + 1));
      }
    case _ =>
  }

  /** The files counted after are those before and some of `more`. */
  ghost predicate Extends(before: seq<Found>, after: seq<Found>, more: seq<Found>) {
    multiset(after) <= multiset(before) + multiset(more)
  }

  lemma Compose(a: seq<Found>, b: seq<Found>, c: seq<Found>, x: seq<Found>, y: seq<Found>)
    requires Extends(a, b, x) && Extends(b, c, y)
    ensures Extends(a, c, x + y)
  {
  }

  lemma {:induction false} VisitAllExtends(limits: Limits, children: seq<Entry>, depth: nat, t: Tally)
    ensures Extends(t.seen, VisitAll(limits, children, depth, t).seen, Visible(children))
    decreases children
  {
    if children != [] && t.entries < limits.maxEntries {
      var head, tail, next := children[0], children[1..], t.(entries := t.entries + 1);
      var one := VisitOne(limits, head, depth, next);
      VisitOneExtends(limits, head, depth, next);
      VisitAllExtends(limits, tail, depth, one);
      Compose(t.seen, one.seen, VisitAll(limits, tail, depth, one).seen, EntryVisible(head), Visible(tail));
    }
  }

  lemma {:induction false} VisitOneExtends(limits: Limits, entry: Entry, depth: nat, t: Tally)
    ensures Extends(t.seen, VisitOne(limits, entry, depth, t).seen, EntryVisible(entry))
    decreases entry
  {
    if entry.Directory? && depth < limits.maxDepth && entry.readable {
      VisitAllExtends(limits, entry.children, depth + 1, t.(directories := t.directories + 1));
    }
  }

  /** A walk that meets no limit meets every file it can. */
  lemma {:induction false} VisitAllFiles(limits: Limits, children: seq<Entry>, depth: nat, t: Tally)
    requires ScanComplete(VisitAll(limits, children, depth, t))
    ensures ScanComplete(t) && VisitAll(limits, children, depth, t).seen == t.seen + Visible(children)
    decreases children
  {
    if children != [] {
      var head, tail, next := children[0], children[1..], t.(entries := t.entries + 1);
      var one := VisitOne(limits, head, depth, next);
      VisitAllFiles(limits, tail, depth, one);
      VisitOneFiles(limits, head, depth, next);
    }
  }

  lemma {:induction false} VisitOneFiles(limits: Limits, entry: Entry, depth: nat, t: Tally)
    requires ScanComplete(VisitOne(limits, entry, depth, t))
    ensures ScanComplete(t) && VisitOne(limits, entry, depth, t).seen == t.seen + EntryVisible(entry)
    decreases entry
  {
    if entry.Directory? && entry.readable {
      VisitAllFiles(limits, entry.children, depth + 1, t.(directories := t.directories + 1));
    }
  }

  /** No file is counted twice or invented, and a complete scan lists the ten largest of
      all the files that can be met. */
  lemma CountedFilesAreThere(limits: Limits, root: seq<Entry>)
    ensures multiset(Scan(limits, root).seen) <= multiset(Visible(root))
    ensures ScanComplete(Scan(limits, root)) ==> Scan(limits, root).largest == Take(Ordered(Visible(root)), KEPT)
  {
    VisitAllExtends(limits, root, 0, EMPTY);
    if ScanComplete(Scan(limits, root)) { VisitAllFiles(limits, root, 0, EMPTY); }
    ScanIsBounded(limits, root);
    assert [] + Visible(root) == Visible(root);
  }

  lemma {:induction false} HiddenIsThere(entries: seq<Entry>)
    ensures Hidden(entries) <= Bytes(entries)
    decreases entries
  {
    if entries != [] {
      EntryHiddenIsThere(entries[0]);
      HiddenIsThere(entries[1..]);
    }
  }

  lemma {:induction false} EntryHiddenIsThere(entry: Entry)
    ensures EntryHidden(entry) <= EntryBytes(entry)
    decreases entry
  {
    if entry.Directory? { HiddenIsThere(entry.children); }
  }

  /** The walk visits at most the allowed entries, never overstates the bytes, and lists
      the first ten of all counted files in order of size and path. */
  lemma ScanIsBounded(limits: Limits, root: seq<Entry>)
    ensures var t := Scan(limits, root);
      && t.entries <= (if limits.maxEntries < 0 then 0 else limits.maxEntries)
      && t.bytes <= Bytes(root)
      && t.largest == Take(Ordered(t.seen), KEPT) && InOrder(Ordered(t.seen))
      && multiset(Ordered(t.seen)) == multiset(t.seen) && t.bytes == Total(t.seen)
  {
    assert Take(Ordered([]), KEPT) == [];
    var t := VisitAllKeeps(limits, root, 0, EMPTY);
    VisitAllBytes(limits, root, 0, EMPTY);
    OrderedIsInOrder(Scan(limits, root).seen);
  }

  /** A scan reported complete has the true total exactly if nothing lies below a
      directory that could not be listed or in an entry that could not be read: neither makes
      a scan incomplete. */
  lemma CompleteScanIsExact(limits: Limits, root: seq<Entry>)
    requires ScanComplete(Scan(limits, root))
    ensures Scan(limits, root).bytes == Bytes(root) - Hidden(root)
    ensures Scan(limits, root).bytes == Bytes(root) <==> Hidden(root) == 0
  {
    VisitAllBytes(limits, root, 0, EMPTY);
  }

  /** An unreadable directory with a file in it is enough. */
  lemma UnreadableDirectoriesGoUnnoticed(path: string, size: nat)
    requires size > 0
    ensures var root, limits := [Directory(false, [File(path, size)])], Limits(10000, 3);
      ScanComplete(Scan(limits, root)) && Scan(limits, root).bytes == 0 < Bytes(root)
  {
    var inner, limits := [File(path, size)], Limits(10000, 3);
    var root := [Directory(false, inner)];
    var next := EMPTY.(entries := 1);
    assert inner[1..] == [] && root[1..] == [];
    assert VisitOne(limits, root[0], 0, next) == next.(directories := 1);
    assert Scan(limits, root) == VisitAll(limits, [], 0, next.(directories := 1));
    assert Bytes(inner) == EntryBytes(inner[0]) + Bytes([]);
    assert Bytes(root) == EntryBytes(root[0]) + Bytes([]);
  }
}

/** The walk as it runs: a recursive visit that updates counters and a list. */
module StorageWalk {
  import opened StringOrder
  import opened StorageWalkSpec

  class Walker {
    const limits: Limits
    var files: nat
    var directories: nat
    var bytesSeen: nat
    var entriesSeen: nat
    var truncated: bool
    var depthLimited: nat
    var largest: seq<Found>
    ghost var seen: seq<Found>

    ghost function State(): Tally
      reads this
    {
      Tally(files, directories, bytesSeen, entriesSeen, truncated, depthLimited, largest, seen)
    }

    constructor (limits: Limits)
      ensures this.limits == limits && State() == EMPTY
    {
      this.limits := limits;
      files, directories, bytesSeen, entriesSeen := 0, 0, 0, 0;
      truncated, depthLimited, largest, seen := false, 0, [], [];
    }

    /** Appends one file to the sorted list and drops what no longer fits. */
    method Keep(found: Found)
      modifies `largest
      ensures largest == Take(Insert(found, old(largest)), KEPT)
    {
      var rows := Insert(found, largest);
      largest := if |rows| <= KEPT then rows else rows[..KEPT];
    }

    method Visit(children: seq<Entry>, depth: nat)
      modifies this
      ensures State() == VisitAll(limits, children, depth, old(State()))
      decreases children, 1
    {
      for k := 0 to |children|
        invariant VisitAll(limits, children[k..], depth, State()) == VisitAll(limits, children, depth, old(State()))
      {
        assert children[k..][0] == children[k] && children[k..][1..] == children[k + 1..];
        if entriesSeen >= limits.maxEntries {
          truncated := true;
          return;
        }
        entriesSeen := entriesSeen + 1;
        VisitEntry(children[k], depth);
      }
    }

    method VisitEntry(entry: Entry, depth: nat)
      modifies this
      ensures State() == VisitOne(limits, entry, depth, old(State()))
      decreases entry, 0
    {
      match entry
      case File(path, size) =>
        var bytes := if size < 0 then 0 else size;
        files := files + 1;
        bytesSeen := bytesSeen + bytes;
        seen := seen + [Found(path, bytes)];
        Keep(Found(path, bytes));
      case Directory(readable, children) =>
        directories := directories + 1;
        if depth < limits.maxDepth {
          if readable {
            Visit(children, depth + 1);
          }
        } else {
          depthLimited := depthLimited + 1;
        }
      case _ =>
    }
  }
}
