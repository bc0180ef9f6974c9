/**
  Human annotations of a blind packet: putting an annotator's entries into the packet's
  order, sealing them with a digest, and verifying a sealed annotation.
 */
module HumanAnnotations {
  import opened Wrappers

  datatype Value = Text(text: string) | Flag(flag: bool) | Number(number: int)
  datatype Kind = TextKind | FlagKind | NumberKind

  type Labels = map<string, Value>

  /** The label fields with their types, and the words seen for each text field. */
  datatype Schema = Schema(kinds: map<string, Kind>, words: map<string, set<string>>)

  datatype Item = Item(id: string, taskDigest: string)

  /** What an annotation copies from its blind packet. */
  datatype Source = Source(
    benchmarkId: string,
    corpusVersion: int,
    corpusDigest: string,
    manifestDigest: string,
    packetDigest: string,
    rule: string,
    holdoutDigest: string)

  /** A blind packet; `valid` is the verdict on it, `schema` is missing if the corpus has none. */
  datatype Blind = Blind(valid: bool, source: Source, ids: seq<string>, items: seq<Item>, schema: Option<Schema>)

  /** An entry with the expected kinds of fields, or anything else. */
  datatype Entry = Entry(id: string, taskDigest: Option<string>, labels: Labels) | Malformed

  datatype Flaw = WrongCount | BadShape | RepeatedId | UnknownId | WrongTask | BadLabels | NotCovered
                | InvalidBlind | BadAnnotator | BadRound

  function KindOf(value: Value): Kind {
    match value
    case Text(_) => TextKind
    case Flag(_) => FlagKind
    case Number(_) => NumberKind
  }

  predicate LabelFits(schema: Schema, labels: Labels, field: string)
    requires field in labels
  {
    && field in schema.kinds && KindOf(labels[field]) == schema.kinds[field]
    && (labels[field].Text? ==> field in schema.words && labels[field].text in schema.words[field])
  }

  predicate LabelsFit(schema: Option<Schema>, labels: Labels) {
    && schema.Some? && labels.Keys == schema.value.kinds.Keys
    && forall field :: field in labels ==> LabelFits(schema.value, labels, field)
  }

  /** The task digest recorded for an id; a later item with the same id wins. */
  function TaskOf(items: seq<Item>, id: string): Option<string> {
    if items == [] then None
    else
      var last := items[|items| - 1];
      if last.id == id then Some(last.taskDigest) else TaskOf(items[..|items| - 1], id)
  }

  // ----- checking the entries

  /** What is wrong with an entry, given the ids already taken. */
  function FlawOf(blind: Blind, entry: Entry, taken: set<string>, sealed: bool): Option<Flaw> {
    if entry.Malformed? || entry.taskDigest.Some? != sealed then Some(BadShape)
    else if entry.id in taken then Some(RepeatedId)
    else if entry.id !in blind.ids || TaskOf(blind.items, entry.id).None? then Some(UnknownId)
    else if sealed && entry.taskDigest != TaskOf(blind.items, entry.id) then Some(WrongTask)
    else if !LabelsFit(blind.schema, entry.labels) then Some(BadLabels)
    else None
  }

  function Ids(entries: seq<Entry>): set<string> { set e | e in entries && e.Entry? :: e.id }

  /** The first flaw, reading from the left. */
  function FirstFlaw(blind: Blind, entries: seq<Entry>, sealed: bool): Option<Flaw> {
    if entries == [] then None
    else
      var front, last := entries[..|entries| - 1], entries[|entries| - 1];
      var before := FirstFlaw(blind, front, sealed);
      if before.Some? then before else FlawOf(blind, last, Ids(front), sealed)
  }

  function ById(entries: seq<Entry>): (r: map<string, Entry>)
    ensures r.Keys == Ids(entries)
    ensures forall id :: id in r ==> r[id] in entries && r[id].Entry? && r[id].id == id
  {
    if entries == [] then map[]
    else
      var front, last := entries[..|entries| - 1], entries[|entries| - 1];
      assert entries == front + [last];
      if last.Entry? then ById(front)[last.id := last] else ById(front)
  }

  function InOrder(ids: seq<string>, byId: map<string, Entry>): (r: seq<Entry>)
    requires forall id :: id in ids ==> id in byId
    ensures |r| == |ids| && forall k :: 0 <= k < |ids| ==> r[k] == byId[ids[k]]
  {
    seq(|ids|, k requires 0 <= k < |ids| => byId[ids[k]])
  }

  /** The entries in the packet's order, or the first flaw. */
  function Canonical(blind: Blind, entries: seq<Entry>, sealed: bool): Result<seq<Entry>, Flaw> {
    if |entries| != |blind.ids| then Err(WrongCount)
    else
      var flaw := FirstFlaw(blind, entries, sealed);
      var byId := ById(entries);
      if flaw.Some? then Err(flaw.value)
      else if byId.Keys != SetOf(blind.ids) then Err(NotCovered)
      else Ok(InOrder(blind.ids, byId))
  }

  /** The check as it runs: one pass that collects the entries by id. */
  method ValidateEntries(blind: Blind, entries: seq<Entry>, sealed: bool) returns (r: Result<seq<Entry>, Flaw>)
    ensures r == Canonical(blind, entries, sealed)
  {
    if |entries| != |blind.ids| {
      return Err(WrongCount);
    }
    var seen: set<string>, byId: map<string, Entry> := {}, map[];
    for k := 0 to |entries|
      invariant FirstFlaw(blind, entries[..k], sealed) == None
      invariant byId == ById(entries[..k]) && seen == byId.Keys
    {
      var front := entries[..k];
      assert entries[..k + 1][..k] == front && entries[..k + 1][k] == entries[k];
      var flaw := FlawOf(blind, entries[k], seen, sealed);
      if flaw.Some? {
        FlawStays(blind, entries, k + 1, sealed);
        return Err(flaw.value);
      }
      seen := seen + {entries[k].id};
      byId := byId[entries[k].id := entries[k]];
    }
    assert entries[..|entries|] == entries;
    if byId.Keys != SetOf(blind.ids) {
      return Err(NotCovered);
    }
    return Ok(InOrder(blind.ids, byId));
  }

  lemma {:induction false} FlawStays(blind: Blind, entries: seq<Entry>, n: nat, sealed: bool)
    requires n <= |entries| && FirstFlaw(blind, entries[..n], sealed).Some?
    ensures FirstFlaw(blind, entries, sealed) == FirstFlaw(blind, entries[..n], sealed)
  {
    if n < |entries| {
      assert entries[..|entries| - 1][..n] == entries[..n];
      FlawStays(blind, entries[..|entries| - 1], n, sealed);
    } else {
      assert entries[..n] == entries;
    }
  }

  // ----- what acceptance means

  predicate Fits(blind: Blind, entry: Entry, sealed: bool) { FlawOf(blind, entry, {}, sealed).None? }

  ghost predicate Distinct(entries: seq<Entry>) {
    forall j, k :: 0 <= j < k < |entries| && entries[j].Entry? && entries[k].Entry? ==> entries[j].id != entries[k].id
  }

  lemma DistinctSnoc(front: seq<Entry>, last: Entry)
    requires last.Entry?
    ensures Distinct(front + [last]) <==> Distinct(front) && last.id !in Ids(front)
  {
    var all := front + [last];
    if Distinct(all) {
      forall j, k | 0 <= j < k < |front| && front[j].Entry? && front[k].Entry? ensures front[j].id != front[k].id {
        assert all[j] == front[j] && all[k] == front[k];
      }
      forall k | 0 <= k < |front| && front[k].Entry? ensures front[k].id != last.id {
        assert all[k] == front[k] && all[|front|] == last;
      }
    }
  }

  lemma FlawWithTaken(blind: Blind, entry: Entry, taken: set<string>, sealed: bool)
    ensures FlawOf(blind, entry, taken, sealed).None? <==> Fits(blind, entry, sealed) && entry.id !in taken
  {
  }

  ghost predicate AllFit(blind: Blind, entries: seq<Entry>, sealed: bool) {
    forall e :: e in entries ==> Fits(blind, e, sealed)
  }

  lemma AllFitSnoc(blind: Blind, front: seq<Entry>, last: Entry, sealed: bool)
    ensures AllFit(blind, front + [last], sealed) <==> AllFit(blind, front, sealed) && Fits(blind, last, sealed)
  {
    var all := front + [last];
    assert last in all && forall e :: e in front ==> e in all;
  }

  lemma {:induction false} NoFlawMeaning(blind: Blind, entries: seq<Entry>, sealed: bool)
    ensures FirstFlaw(blind, entries, sealed) == None <==> AllFit(blind, entries, sealed) && Distinct(entries)
  {
    if entries != [] {
      var front, last := entries[..|entries| - 1], entries[|entries| - 1];
      NoFlawMeaning(blind, front, sealed);
      assert entries == front + [last];
      FlawWithTaken(blind, last, Ids(front), sealed);
      AllFitSnoc(blind, front, last, sealed);
      if last.Entry? { DistinctSnoc(front, last); }
    }
  }

  lemma {:induction false} DistinctCount(entries: seq<Entry>)
    requires forall e :: e in entries ==> e.Entry?
    ensures |Ids(entries)| <= |entries|
    ensures Distinct(entries) <==> |Ids(entries)| == |entries|
  {
    if entries != [] {
      var front, last := entries[..|entries| - 1], entries[|entries| - 1];
      assert entries == front + [last];
      DistinctSnoc(front, last);
      DistinctCount(front);
      assert Ids(entries) == Ids(front) + {last.id};
    }
  }

  function SetOf(ids: seq<string>): set<string> { set id | id in ids }

  ghost predicate NoRepeats(ids: seq<string>) { forall j, k :: 0 <= j < k < |ids| ==> ids[j] != ids[k] }

  lemma {:induction false} SetCount(ids: seq<string>)
    ensures |SetOf(ids)| <= |ids|
    ensures |SetOf(ids)| == |ids| ==> NoRepeats(ids)
  {
    if ids != [] {
      var first, rest := ids[0], ids[1..];
      SetCount(rest);
      assert ids == [first] + rest;
      assert SetOf(ids) == {first} + SetOf(rest);
      if |SetOf(ids)| == |ids| {
        assert first !in SetOf(rest);
        NoRepeatsCons(first, rest);
      }
    }
  }

  lemma NoRepeatsCons(first: string, rest: seq<string>)
    requires NoRepeats(rest) && first !in rest
    ensures NoRepeats([first] + rest)
  {
  }

  lemma {:induction false} SubsetOfSameSize(a: set<string>, b: set<string>)
    requires a <= b && |b| <= |a|
    ensures a == b
    decreases |a|
  {
    if exists x :: x in a {
      var x :| x in a;
      SubsetOfSameSize(a - {x}, b - {x});
      assert a == (a - {x}) + {x} && b == (b - {x}) + {x};
    }
  }

  /** As many distinct entries as the packet has ids, each with an id of the packet, name
      every id there is. */
  lemma FittingEntriesCover(blind: Blind, entries: seq<Entry>, sealed: bool)
    requires |entries| == |blind.ids| && Distinct(entries) && AllFit(blind, entries, sealed)
    ensures Ids(entries) == SetOf(blind.ids) && NoRepeats(blind.ids)
  {
    DistinctCount(entries);
    SetCount(blind.ids);
    SubsetOfSameSize(Ids(entries), SetOf(blind.ids));
  }

  /** The last check can never fail: the earlier ones force full coverage. */
  lemma CoverageCheckNeverFires(blind: Blind, entries: seq<Entry>, sealed: bool)
    ensures Canonical(blind, entries, sealed) != Err(NotCovered)
    ensures Canonical(blind, entries, sealed).Ok? <==>
            |entries| == |blind.ids| && Distinct(entries) && AllFit(blind, entries, sealed)
  {
    NoFlawMeaning(blind, entries, sealed);
    if |entries| == |blind.ids| && FirstFlaw(blind, entries, sealed).None? {
      FittingEntriesCover(blind, entries, sealed);
    } else {
      FlawIsSpecific(blind, entries, sealed);
    }
  }

  lemma {:induction false} FlawIsSpecific(blind: Blind, entries: seq<Entry>, sealed: bool)
    ensures FirstFlaw(blind, entries, sealed) != Some(NotCovered)
  {
    if entries != [] { FlawIsSpecific(blind, entries[..|entries| - 1], sealed); }
  }

  /** `r` lists the entries in the packet's order. */
  ghost predicate Arranged(blind: Blind, entries: seq<Entry>, r: seq<Entry>) {
    |r| == |blind.ids| && forall k :: 0 <= k < |r| ==> r[k] in entries && r[k].Entry? && r[k].id == blind.ids[k]
  }

  lemma EntryIsUnique(entries: seq<Entry>, a: Entry, b: Entry)
    requires Distinct(entries) && a in entries && b in entries && a.Entry? && b.Entry? && a.id == b.id
    ensures a == b
  {
    var j :| 0 <= j < |entries| && entries[j] == a;
    var k :| 0 <= k < |entries| && entries[k] == b;
  }

  /** Exactly which list a check accepts, and as what. */
  lemma CanonicalMeaning(blind: Blind, entries: seq<Entry>, sealed: bool, r: seq<Entry>)
    ensures Canonical(blind, entries, sealed) == Ok(r) <==>
            && |entries| == |blind.ids| && Distinct(entries)
            && AllFit(blind, entries, sealed) && Arranged(blind, entries, r)
  {
    CoverageCheckNeverFires(blind, entries, sealed);
    if Canonical(blind, entries, sealed).Ok? && Arranged(blind, entries, r) {
      var byId := ById(entries);
      forall k | 0 <= k < |r| ensures r[k] == byId[blind.ids[k]] {
        assert blind.ids[k] in SetOf(blind.ids);
        EntryIsUnique(entries, r[k], byId[blind.ids[k]]);
      }
      assert r == InOrder(blind.ids, byId);
    }
  }

  lemma SameMembers(a: seq<Entry>, b: seq<Entry>)
    requires multiset(a) == multiset(b)
    ensures |a| == |b| && forall e :: e in a <==> e in b
  {
    assert |a| == |multiset(a)| && |b| == |multiset(b)|;
    assert forall e :: e in b <==> e in multiset(b);
    assert forall e :: e in a <==> e in multiset(a);
  }

  lemma DistinctIgnoresOrder(a: seq<Entry>, b: seq<Entry>)
    requires |a| == |b| && (forall e :: e in a <==> e in b) && (forall e :: e in a ==> e.Entry?)
    ensures Distinct(a) <==> Distinct(b)
  {
    DistinctCount(a);
    DistinctCount(b);
    assert Ids(a) == Ids(b);
  }

  /** The order in which the entries are given does not matter. */
  lemma OrderDoesNotMatter(blind: Blind, a: seq<Entry>, b: seq<Entry>, sealed: bool)
    requires multiset(a) == multiset(b)
    ensures Canonical(blind, a, sealed).Ok? ==> Canonical(blind, b, sealed) == Canonical(blind, a, sealed)
  {
    if Canonical(blind, a, sealed).Ok? {
      var r := Canonical(blind, a, sealed).value;
      CanonicalMeaning(blind, a, sealed, r);
      SameMembers(a, b);
      DistinctIgnoresOrder(a, b);
      CanonicalMeaning(blind, b, sealed, r);
    }
  }

  // ----- building and verifying

  datatype Marks = Marks(
    schemaVersion: int,
    kind: string,
    status: string,
    labelSource: string,
    goldFrozen: bool,
    promotionAllowed: bool,
    readOnly: bool)

  const HUMAN_MARKS := Marks(1, "local-agent-dispatch.benchmark_human_annotation",
                             "human_unadjudicated", "human_attested", false, false, true)

  datatype Core = Core(
    marks: Marks,
    source: Source,
    ids: seq<string>,
    count: int,
    annotatorId: string,
    annotatorSource: string,
    round: string,
    entries: seq<Entry>)

  datatype Annotation = Annotation(core: Core, digest: string)

  datatype Input = Input(annotatorId: string, round: Option<string>, entries: seq<Entry>)

  predicate GoodAnnotator(id: string) {
    1 <= |id| <= 128 && forall k :: 0 <= k < |id| ==> id[k] as int >= 32 && id[k] as int != 127
  }

  function Seal(hash: Core -> string, core: Core): Annotation { Annotation(core, hash(core)) }

  function Stamp(items: seq<Item>, entries: seq<Entry>): (r: seq<Entry>)
    ensures |r| == |entries|
  {
    seq(|entries|, k requires 0 <= k < |entries| =>
      if entries[k].Entry? then entries[k].(taskDigest := TaskOf(items, entries[k].id)) else Malformed)
  }

  function Strip(entries: seq<Entry>): (r: seq<Entry>)
    ensures |r| == |entries|
  {
    seq(|entries|, k requires 0 <= k < |entries| =>
      if entries[k].Entry? then entries[k].(taskDigest := None) else Malformed)
  }

  function Build(hash: Core -> string, blind: Blind, input: Input): Result<Annotation, Flaw> {
    var round := if input.round.Some? then input.round.value else "independent";
    if !blind.valid then Err(InvalidBlind)
    else if !GoodAnnotator(input.annotatorId) then Err(BadAnnotator)
    else if round == "" then Err(BadRound)
    else
      match Canonical(blind, input.entries, false)
      case Err(flaw) => Err(flaw)
      case Ok(entries) =>
        Ok(Seal(hash, Core(HUMAN_MARKS, blind.source, blind.ids, |entries|, input.annotatorId, "human", round,
                           Stamp(blind.items, entries))))
  }

  /** Every stated field except the annotator's source is compared with what it should be. */
  predicate Verify(hash: Core -> string, blind: Blind, a: Annotation) {
    && blind.valid
    && a.core.marks == HUMAN_MARKS && a.core.source == blind.source
    && a.core.ids == blind.ids && a.core.count == |blind.ids|
    && GoodAnnotator(a.core.annotatorId) && a.core.round != ""
    && Canonical(blind, a.core.entries, true) == Ok(a.core.entries)
    && a.digest == hash(a.core)
  }

  lemma ArrangedIsDistinct(blind: Blind, entries: seq<Entry>, r: seq<Entry>)
    requires NoRepeats(blind.ids) && Arranged(blind, entries, r)
    ensures Distinct(r)
  {
  }

  lemma StampedFits(blind: Blind, e: Entry)
    requires Fits(blind, e, false)
    ensures Fits(blind, e.(taskDigest := TaskOf(blind.items, e.id)), true)
  {
  }

  lemma StrippedFits(blind: Blind, e: Entry)
    requires Fits(blind, e, true)
    ensures Fits(blind, e.(taskDigest := None), false) && e.taskDigest == TaskOf(blind.items, e.id)
  {
  }

  lemma StampedIsCanonical(blind: Blind, entries: seq<Entry>, r: seq<Entry>)
    requires Canonical(blind, entries, false) == Ok(r)
    ensures Canonical(blind, Stamp(blind.items, r), true) == Ok(Stamp(blind.items, r))
  {
    CanonicalMeaning(blind, entries, false, r);
    FittingEntriesCover(blind, entries, false);
    var stamped := Stamp(blind.items, r);
    forall k | 0 <= k < |r|
      ensures stamped[k].Entry? && stamped[k].id == blind.ids[k] && Fits(blind, stamped[k], true)
    {
      StampedFits(blind, r[k]);
    }
    assert Arranged(blind, stamped, stamped);
    ArrangedIsDistinct(blind, stamped, stamped);
    assert AllFit(blind, stamped, true);
    CanonicalMeaning(blind, stamped, true, stamped);
  }

  lemma StrippedIsCanonical(blind: Blind, entries: seq<Entry>)
    requires Canonical(blind, entries, true) == Ok(entries)
    ensures Canonical(blind, Strip(entries), false) == Ok(Strip(entries))
    ensures Stamp(blind.items, Strip(entries)) == entries
  {
    CanonicalMeaning(blind, entries, true, entries);
    FittingEntriesCover(blind, entries, true);
    var stripped := Strip(entries);
    forall k | 0 <= k < |entries|
      ensures stripped[k].Entry? && stripped[k].id == blind.ids[k] && Fits(blind, stripped[k], false)
      ensures entries[k] == stripped[k].(taskDigest := TaskOf(blind.items, stripped[k].id))
    {
      StrippedFits(blind, entries[k]);
    }
    assert Arranged(blind, stripped, stripped);
    ArrangedIsDistinct(blind, stripped, stripped);
    assert AllFit(blind, stripped, false);
    CanonicalMeaning(blind, stripped, false, stripped);
  }

  /** Every annotation that can be built verifies. */
  lemma BuildVerifies(hash: Core -> string, blind: Blind, input: Input)
    requires Build(hash, blind, input).Ok?
    ensures Verify(hash, blind, Build(hash, blind, input).value)
  {
    StampedIsCanonical(blind, input.entries, Canonical(blind, input.entries, false).value);
  }

  /** Two orders of the same entries build exactly the same annotation. */
  lemma BuildIgnoresOrder(hash: Core -> string, blind: Blind, input: Input, entries: seq<Entry>)
    requires multiset(entries) == multiset(input.entries) && Build(hash, blind, input).Ok?
    ensures Build(hash, blind, input.(entries := entries)) == Build(hash, blind, input)
  {
    OrderDoesNotMatter(blind, input.entries, entries, false);
  }

  function InputOf(a: Annotation): Input {
    Input(a.core.annotatorId, Some(a.core.round), Strip(a.core.entries))
  }

  /** The converse: what verifies is what its own labels build, except that the annotator's
      source may say anything. */
  lemma VerifyMeaning(hash: Core -> string, blind: Blind, a: Annotation)
    ensures Verify(hash, blind, a) <==>
            Build(hash, blind, InputOf(a)) == Ok(Seal(hash, a.core.(annotatorSource := "human")))
            && a.digest == hash(a.core)
  {
    if Verify(hash, blind, a) {
      StrippedIsCanonical(blind, a.core.entries);
    } else if Build(hash, blind, InputOf(a)) == Ok(Seal(hash, a.core.(annotatorSource := "human"))) {
      StampedIsCanonical(blind, InputOf(a).entries, Canonical(blind, InputOf(a).entries, false).value);
    }
  }

  /** An annotation that verifies was built from its labels exactly if it says it is by a
      human; one that says otherwise verifies just as well. */
  lemma SourceIsNotChecked(hash: Core -> string, blind: Blind, a: Annotation, source: string)
    requires Verify(hash, blind, a)
    ensures Verify(hash, blind, Seal(hash, a.core.(annotatorSource := source)))
    ensures Build(hash, blind, InputOf(a)) == Ok(a) <==> a.core.annotatorSource == "human"
  {
    VerifyMeaning(hash, blind, a);
  }
}
