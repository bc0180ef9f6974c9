/**
  Choosing one exact model inside a shared pool.

  A job names models in a small dialect of text, lists and tables.  A pool of the
  provider "opencode" may only be spent on a model the job named.
 */
module ModelApproval {
  import opened Wrappers
  import opened StringOrder

  /** JSON as far as the dialect looks at it; a table has each key once. */
  datatype Json = Absent | Text(text: string) | Many(items: seq<Json>) | Table(rows: seq<Row>)
  datatype Row = Row(key: string, value: Json)

  /** What else a job says about models. */
  datatype TaskPolicy = TaskPolicy(approvedModels: Json, allowedModels: Json, modelApproval: Json)

  datatype Role = Efficient | Code | Hard

  datatype Job = Job(
    id: string,
    allowedPools: set<string>,
    modelByPool: map<string, Json>,
    approvedModels: Json,
    allowedModels: Json,
    modelApproval: Json,
    policy: Option<TaskPolicy>,
    optIn: set<string>,
    role: Role)

  /** A row of a role table: a bare name, or a name with its variant ("" for none). */
  datatype Listed = Bare(model: string) | Full(model: string, variant: string)

  datatype Pool = Pool(
    catalog: set<string>,
    excluded: set<string>,
    rejected: set<string>,
    rejectedVariants: map<string, set<string>>,
    availableVariants: map<string, set<string>>,
    modelVariants: map<string, string>,
    roleCandidates: map<Role, seq<Listed>>,
    roleModels: map<Role, string>,
    defaultModel: string,
    defaultVariant: string,
    model: string)

  datatype Profile = Profile(opencode: bool, model: string)

  datatype Candidate = Candidate(model: string, variant: string)

  datatype Choice = Chosen(pick: Candidate) | Refused | NeedsApproval

  // ----- the names in a value

  /** Nothing but ASCII white space. */
  predicate Blank(s: string) { forall k :: 0 <= k < |s| ==> s[k] in " \t\n\r\U{0B}\U{0C}" }

  function Get(rows: seq<Row>, key: string): (r: Json)
    ensures r == Absent || exists k :: 0 <= k < |rows| && r == rows[k].value
  {
    if rows == [] then Absent
    else if rows[0].key == key then rows[0].value
    else Get(rows[1..], key)
  }

  predicate Has(rows: seq<Row>, key: string) { exists k :: 0 <= k < |rows| && rows[k].key == key }

  predicate Truthy(value: Json) {
    match value
    case Absent => false
    case Text(text) => text != ""
    case Many(items) => items != []
    case Table(rows) => rows != []
  }

  /** Which entry of a table holds the names. */
  function NamingKey(rows: seq<Row>): string {
    if Truthy(Get(rows, "model")) then "model"
    else if Truthy(Get(rows, "exact_model")) then "exact_model"
    else if Has(rows, "models") then "models"
    else if Has(rows, "allowed_models") then "allowed_models"
    else "approved_models"
  }

  function Named(value: Json): (r: set<string>)
    ensures forall name :: name in r ==> !Blank(name)
    decreases value, 0
  {
    match value
    case Absent => {}
    case Text(text) => if Blank(text) then {} else {text}
    case Many(items) => NamedIn(items)
    case Table(rows) =>
      var inner := Get(rows, NamingKey(rows));
      if inner.Absent? then {} else Named(inner)
  }

  function NamedIn(items: seq<Json>): (r: set<string>)
    ensures forall name :: name in r ==> !Blank(name)
    decreases items, 1
  {
    if items == [] then {} else Named(items[0]) + NamedIn(items[1..])
  }

  /** A list of approvals is either for all pools or keyed by pool. */
  function ForPool(source: Json, pool: string): set<string> {
    if source.Table? then Named(Get(source.rows, pool)) else Named(source)
  }

  /** A single approval keyed by pool, or one that holds for every pool. */
  function ApprovalFor(source: Json, pool: string): set<string> {
    if source.Table? && Has(source.rows, pool) then Named(Get(source.rows, pool)) else Named(source)
  }

  function Override(job: Job, pool: string): Json {
    if pool in job.modelByPool then job.modelByPool[pool] else Absent
  }

  /** Every model the job itself names for this pool. */
  function Approvals(job: Job, pool: string): (r: set<string>)
    ensures forall name :: name in r ==> !Blank(name)
  {
    Named(Override(job, pool))
    + ForPool(job.approvedModels, pool) + ForPool(job.allowedModels, pool) + ApprovalFor(job.modelApproval, pool)
    + match job.policy
      case None => {}
      case Some(policy) => ForPool(policy.approvedModels, pool) + ForPool(policy.allowedModels, pool)
                           + ApprovalFor(policy.modelApproval, pool)
  }

  // ----- which models a pool offers

  function VariantsOf(table: map<string, set<string>>, model: string): set<string> {
    if model in table then table[model] else {}
  }

  /** The catalogue, with the excluded models this job opted into. */
  function Offered(job: Job, pool: Pool): set<string> { pool.catalog + pool.excluded * job.optIn }

  predicate Eligible(job: Job, pool: Pool, profile: Profile, pick: Candidate) {
    && pick.model != "" && pick.model !in pool.rejected
    && (Offered(job, pool) == {} || pick.model in Offered(job, pool))
    && pick.variant !in VariantsOf(pool.rejectedVariants, pick.model) - {""}
    && (pick.variant != "" && profile.opencode ==> pick.variant in VariantsOf(pool.availableVariants, pick.model))
  }

  // ----- the candidates, in order of preference

  function TextOf(value: Json): string { if value.Text? then value.text else "" }

  /** The model the job demands of this pool, with its variant. */
  function Requested(job: Job, pool: string): Candidate {
    var wanted := Override(job, pool);
    if wanted.Table? then Candidate(TextOf(Get(wanted.rows, "model")), TextOf(Get(wanted.rows, "variant")))
    else Candidate(TextOf(wanted), "")
  }

  function Rows(pool: Pool, role: Role): seq<Listed> {
    if role in pool.roleCandidates then pool.roleCandidates[role] else []
  }

  function OtherRoles(role: Role): seq<Role> {
    match role
    case Code => [Efficient, Hard]
    case Efficient => [Code, Hard]
    case Hard => [Code, Efficient]
  }

  function FirstNonEmpty(a: string, b: string, c: string): string { if a != "" then a else if b != "" then b else c }

  /** The model of last resort for a role. */
  function Fallback(pool: Pool, profile: Profile, role: Role): Listed {
    Bare(FirstNonEmpty(if role in pool.roleModels then pool.roleModels[role] else "", pool.defaultModel, profile.model))
  }

  /** The rows for the role first, then those of the two other roles. */
  function Advertised(job: Job, pool: Pool, profile: Profile): seq<Listed> {
    var others := OtherRoles(job.role);
    var all := Rows(pool, job.role) + Rows(pool, others[0]) + Rows(pool, others[1]);
    if all == [] then [Fallback(pool, profile, job.role)] else all
  }

  function VariantFor(pool: Pool, model: string): string {
    if model in pool.modelVariants then pool.modelVariants[model] else ""
  }

  function Resolve(pool: Pool, row: Listed): (r: Candidate)
    ensures r.model == row.model
  {
    match row
    case Bare(model) => Candidate(model, VariantFor(pool, model))
    case Full(model, variant) => Candidate(model, variant)
  }

  function ResolveAll(pool: Pool, rows: seq<Listed>): (r: seq<Candidate>)
    ensures forall pick :: pick in r ==> exists row :: row in rows && pick == Resolve(pool, row)
    ensures forall row :: row in rows ==> Resolve(pool, row) in r
  {
    if rows == [] then [] else [Resolve(pool, rows[0])] + ResolveAll(pool, rows[1..])
  }

  function OnlyNamed(rows: seq<Listed>, names: set<string>): (r: seq<Listed>)
    ensures forall k :: 0 <= k < |r| ==> r[k] in rows && r[k].model in names
    ensures forall row :: row in rows && row.model in names ==> row in r
  {
    if rows == [] then []
    else if rows[0].model in names then [rows[0]] + OnlyNamed(rows[1..], names)
    else OnlyNamed(rows[1..], names)
  }

  predicate IsFirst(name: string, names: set<string>) {
    name in names && forall other :: other in names ==> other == name || Less(name, other)
  }

  lemma {:induction false} FirstExists(names: set<string>)
    requires exists name :: name in names
    ensures exists name :: IsFirst(name, names)
    decreases |names|
  {
    var x :| x in names;
    var rest := names - {x};
    if exists name :: name in rest {
      FirstExists(rest);
      var first :| IsFirst(first, rest);
      LessTotal(x, first);
      forall other | other in rest && Less(x, first) ensures Less(x, other) {
        if other != first { LessTransitive(x, first, other); }
      }
      assert IsFirst(if Less(x, first) then x else first, names) by {
        forall other | other in names ensures other == x || other in rest { }
      }
    } else {
      assert IsFirst(x, names) by {
        forall other | other in names ensures other == x { assert other !in rest; }
      }
    }
  }

  lemma FirstIsUnique(a: string, b: string, names: set<string>)
    requires IsFirst(a, names) && IsFirst(b, names)
    ensures a == b
  {
    LessAsymmetric(a, b);
  }

  /** The names in order. */
  function Sorted(names: set<string>): (r: seq<string>)
    ensures forall name :: name in r <==> name in names
    decreases |names|
  {
    if forall name :: name in names ==> false then []
    else
      FirstExists(names);
      assert forall a, b :: IsFirst(a, names) && IsFirst(b, names) ==> a == b by {
        forall a, b | IsFirst(a, names) && IsFirst(b, names) ensures a == b { FirstIsUnique(a, b, names); }
      }
      var first :| IsFirst(first, names);
      [first] + Sorted(names - {first})
  }

  function Models(rows: seq<Listed>): set<string> { set row | row in rows :: row.model }

  function Unadvertised(pool: Pool, names: seq<string>): (r: seq<Candidate>)
    ensures forall pick :: pick in r ==> pick.model in names
    ensures forall name :: name in names ==> Candidate(name, VariantFor(pool, name)) in r
  {
    if names == [] then [] else [Candidate(names[0], VariantFor(pool, names[0]))] + Unadvertised(pool, names[1..])
  }

  /** An opencode pool: the advertised models that were approved, then the other approved ones. */
  function ApprovedAmong(pool: Pool, rows: seq<Listed>, names: set<string>): (r: seq<Candidate>)
    ensures forall pick :: pick in r ==> pick.model in names
    ensures forall row :: row in rows && row.model in names ==> Resolve(pool, row) in r
    ensures forall name :: name in names - Models(rows) ==> Candidate(name, VariantFor(pool, name)) in r
  {
    var listed := OnlyNamed(rows, names);
    ResolveAll(pool, listed) + Unadvertised(pool, Sorted(names - Models(listed)))
  }

  function ApprovedCandidates(job: Job, poolId: string, pool: Pool, profile: Profile): seq<Candidate> {
    ApprovedAmong(pool, Advertised(job, pool, profile), Approvals(job, poolId))
  }

  /** Any other pool: its rows for the role, or its one default. */
  function RoleCandidates(job: Job, pool: Pool, profile: Profile): seq<Candidate> {
    if pool.roleModels == map[] then
      [Candidate(FirstNonEmpty(pool.model, pool.defaultModel, profile.model), pool.defaultVariant)]
    else
      var rows := Rows(pool, job.role);
      var listed := if rows == [] then [Fallback(pool, profile, job.role)] else rows;
      seq(|listed|, k requires 0 <= k < |listed| =>
        Candidate(listed[k].model, if listed[k].Full? then listed[k].variant else ""))
  }

  ghost predicate IsFirstEligible(job: Job, pool: Pool, profile: Profile, candidates: seq<Candidate>, k: int) {
    && 0 <= k < |candidates| && Eligible(job, pool, profile, candidates[k])
    && forall j :: 0 <= j < k ==> !Eligible(job, pool, profile, candidates[j])
  }

  function FirstEligible(job: Job, pool: Pool, profile: Profile, candidates: seq<Candidate>): (r: Choice)
    ensures r.Chosen? ==> exists k :: IsFirstEligible(job, pool, profile, candidates, k) && r.pick == candidates[k]
    ensures r.Refused? <==> forall pick :: pick in candidates ==> !Eligible(job, pool, profile, pick)
    ensures !r.NeedsApproval?
  {
    if candidates == [] then Refused
    else if Eligible(job, pool, profile, candidates[0]) then
      assert IsFirstEligible(job, pool, profile, candidates, 0);
      Chosen(candidates[0])
    else
      assert candidates == [candidates[0]] + candidates[1..];
      var r := FirstEligible(job, pool, profile, candidates[1..]);
      assert r.Chosen? ==> forall k :: IsFirstEligible(job, pool, profile, candidates[1..], k) ==>
                                       IsFirstEligible(job, pool, profile, candidates, k + 1);
      r
  }

  function Select(job: Job, poolId: string, pool: Pool, profile: Profile): Choice {
    var wanted := Requested(job, poolId);
    if wanted.model != "" then
      if Eligible(job, pool, profile, wanted) then Chosen(wanted) else Refused
    else if profile.opencode && Approvals(job, poolId) == {} then NeedsApproval
    else if profile.opencode then
      FirstEligible(job, pool, profile, ApprovedCandidates(job, poolId, pool, profile))
    else FirstEligible(job, pool, profile, RoleCandidates(job, pool, profile))
  }

  lemma NextCandidate(job: Job, pool: Pool, profile: Profile, candidates: seq<Candidate>, k: nat)
    requires k < |candidates|
    ensures FirstEligible(job, pool, profile, candidates[k..]) ==
      if Eligible(job, pool, profile, candidates[k]) then Chosen(candidates[k])
      else FirstEligible(job, pool, profile, candidates[k + 1..])
  {
    assert candidates[k..][0] == candidates[k] && candidates[k..][1..] == candidates[k + 1..];
  }

  /** The choice as it is made: candidates one by one, each pair of model and variant once. */
  method SelectPoolModel(job: Job, poolId: string, pool: Pool, profile: Profile) returns (choice: Choice)
    ensures choice == Select(job, poolId, pool, profile)
  {
    var wanted := Requested(job, poolId);
    if wanted.model != "" {
      return if Eligible(job, pool, profile, wanted) then Chosen(wanted) else Refused;
    }
    if profile.opencode && Approvals(job, poolId) == {} {
      return NeedsApproval;
    }
    var candidates := if profile.opencode then ApprovedCandidates(job, poolId, pool, profile)
                      else RoleCandidates(job, pool, profile);
    var seen: set<Candidate> := {};
    for k := 0 to |candidates|
      invariant forall pick :: pick in seen ==> !Eligible(job, pool, profile, pick)
      invariant FirstEligible(job, pool, profile, candidates)
             == FirstEligible(job, pool, profile, candidates[k..])
    {
      var pick := candidates[k];
      NextCandidate(job, pool, profile, candidates, k);
      if pick in seen {
        continue;
      }
      seen := seen + {pick};
      if Eligible(job, pool, profile, pick) {
        return Chosen(pick);
      }
    }
    return Refused;
  }

  // ----- what a choice may be

  /** Whatever is chosen can be had: it is not rejected, it is in a catalogue that says
      anything or was excluded and opted into, and its variant is not a rejected one. */
  lemma ChosenIsOffered(job: Job, poolId: string, pool: Pool, profile: Profile)
    requires Select(job, poolId, pool, profile).Chosen?
    ensures var pick := Select(job, poolId, pool, profile).pick;
      && pick.model != "" && pick.model !in pool.rejected
      && (pick.model in pool.catalog || (pick.model in pool.excluded && pick.model in job.optIn)
          || (pool.catalog == {} && pool.excluded * job.optIn == {}))
      && (pick.variant != "" ==> pick.variant !in VariantsOf(pool.rejectedVariants, pick.model))
      && (pick.variant != "" && profile.opencode ==> pick.variant in VariantsOf(pool.availableVariants, pick.model))
  {
    var pick := Select(job, poolId, pool, profile).pick;
    assert Eligible(job, pool, profile, pick);
    assert Offered(job, pool) == {} ==> pool.catalog == {};
  }

  /** The job demands a name of nothing but white space. */
  predicate DemandsBlank(job: Job, poolId: string) {
    var model := Requested(job, poolId).model;
    model != "" && Blank(model)
  }

  /** An opencode pool is spent only on a model the job named for it, exactly if the job does
      not demand a blank name: white space counts as a demand but not as an approval. */
  lemma OpencodeIsApproved(job: Job, poolId: string, pool: Pool, profile: Profile)
    requires profile.opencode && Select(job, poolId, pool, profile).Chosen?
    ensures Select(job, poolId, pool, profile).pick.model in Approvals(job, poolId) <==> !DemandsBlank(job, poolId)
  {
    var wanted := Requested(job, poolId);
    var pick := Select(job, poolId, pool, profile).pick;
    if wanted.model != "" {
      if !Blank(wanted.model) { DemandIsApproval(job, poolId); }
    } else {
      assert pick in ApprovedCandidates(job, poolId, pool, profile);
    }
  }

  lemma DemandIsApproval(job: Job, poolId: string)
    requires !Blank(Requested(job, poolId).model)
    ensures Requested(job, poolId).model in Approvals(job, poolId)
  {
    var wanted := Override(job, poolId);
    if wanted.Table? {
      var inner := Get(wanted.rows, "model");
      assert inner == Text(Requested(job, poolId).model);
      assert Named(wanted) == Named(inner);
    }
  }

  lemma BlankDemandPasses(pool: Pool, profile: Profile)
    requires profile.opencode && pool.catalog == {} && pool.rejected == {}
    ensures var job := Job("job", {}, map["go" := Text(" ")], Absent, Absent, Absent, None, {}, Hard);
      Select(job, "go", pool, profile) == Chosen(Candidate(" ", "")) && Approvals(job, "go") == {}
  {
    var job := Job("job", {}, map["go" := Text(" ")], Absent, Absent, Absent, None, {}, Hard);
    assert Blank(" ");
    assert Requested(job, "go") == Candidate(" ", "");
    assert Offered(job, pool) == {};
  }

  /** The approval gate closes exactly on an opencode pool for which the job names nothing. */
  lemma GateMeaning(job: Job, poolId: string, pool: Pool, profile: Profile)
    ensures Select(job, poolId, pool, profile) == NeedsApproval <==>
            profile.opencode && Approvals(job, poolId) == {} && Requested(job, poolId).model == ""
  {
  }

  /** No approved model is passed over: if an opencode pool is refused without a demand,
      every approved model fails with the variant the pool has for it, unless the role
      tables list it, in which case it fails as listed. */
  lemma RefusalMeaning(job: Job, poolId: string, pool: Pool, profile: Profile, model: string)
    requires profile.opencode && Requested(job, poolId).model == ""
    requires Select(job, poolId, pool, profile) == Refused && model in Approvals(job, poolId)
    ensures forall row :: row in Advertised(job, pool, profile) && row.model == model ==>
                          !Eligible(job, pool, profile, Resolve(pool, row))
    ensures model !in Models(Advertised(job, pool, profile)) ==>
            !Eligible(job, pool, profile, Candidate(model, VariantFor(pool, model)))
  {
    var rows, names := Advertised(job, pool, profile), Approvals(job, poolId);
    var candidates := ApprovedAmong(pool, rows, names);
    assert forall pick :: pick in candidates ==> !Eligible(job, pool, profile, pick);
  }
}
