/** What an operator adopted, and the claims that follow: intent versions that form one chain,
    and drift findings that are opened, refreshed and resolved as evidence arrives.

    `State` and its functions say what each request makes of one object; `ManagedObject` is the
    object itself, updated in place. Classification, freshness and ownership gates are inputs. */
module Management {
  import opened Outcomes

  type FieldName = string
  type IntentId = nat
  type ObservationId = nat

  datatype Source = Source(capability: string, provider: string)

  /** One reading of the object. A field it has no usable value for is absent. */
  datatype Observation = Observation(id: ObservationId, source: Source, values: map<FieldName, int>)

  datatype Setting = Setting(name: FieldName, value: int)

  datatype Intent = Intent(
    id: IntentId,
    version: nat,
    supersedes: Option<IntentId>,
    source: Source,
    settings: seq<Setting>)

  datatype Stance = Observed | Managed | ObserveOnly

  datatype Comparison = Matches | Differs | Unknown

  datatype Resolution = ObservedMatchesIntent(proof: ObservationId) | IntentRevised | IntentReleased

  /** A drift claim about one field. `seenAt` is when the disagreement was last proved, which
      an evaluation that could not read the value does not move. */
  datatype Finding = Finding(
    field: FieldName,
    intent: IntentId,
    intended: int,
    observed: Option<int>,
    comparison: Comparison,
    seenAt: nat,
    updatedAt: nat,
    resolution: Option<Resolution>)

  datatype Evaluation = Evaluation(at: nat, comparisons: map<FieldName, Comparison>)

  /** `history` is every evaluation since the current adoption. */
  datatype State = State(
    stance: Stance,
    active: Option<IntentId>,
    intents: seq<Intent>,
    findings: seq<Finding>,
    observation: Option<Observation>,
    history: seq<Evaluation>)

  const UNSEEN := State(Observed, None, [], [], None, [])

  // -------------------------------------------------------------------------- the comparison

  predicate Controls(settings: seq<Setting>, name: FieldName) {
    exists i :: 0 <= i < |settings| && settings[i].name == name
  }

  predicate Distinct(settings: seq<Setting>) {
    forall i, j :: 0 <= i < j < |settings| ==> settings[i].name != settings[j].name
  }

  function Compare(source: Source, setting: Setting, o: Option<Observation>): Comparison {
    if o.None? || o.value.source != source || setting.name !in o.value.values then Unknown
    else if o.value.values[setting.name] == setting.value then Matches
    else Differs
  }

  function Comparisons(source: Source, settings: seq<Setting>, o: Option<Observation>): map<FieldName, Comparison> {
    if settings == [] then map[]
    else
      var last := settings[|settings| - 1];
      Comparisons(source, settings[..|settings| - 1], o)[last.name := Compare(source, last, o)]
  }

  /** A field is compared exactly when it is controlled. */
  lemma {:induction false} ComparedIsControlled(source: Source, settings: seq<Setting>, o: Option<Observation>,
                                                name: FieldName)
    ensures name in Comparisons(source, settings, o) <==> Controls(settings, name)
    decreases |settings|
  {
    if settings != [] {
      var rest := settings[..|settings| - 1];
      ComparedIsControlled(source, rest, o, name);
      assert forall i :: 0 <= i < |rest| ==> rest[i] == settings[i];
      assert Controls(settings, name) <==> Controls(rest, name) || settings[|settings| - 1].name == name;
    }
  }

  lemma {:induction false} ComparedAt(source: Source, settings: seq<Setting>, o: Option<Observation>, i: nat)
    requires Distinct(settings) && i < |settings|
    ensures settings[i].name in Comparisons(source, settings, o)
    ensures Comparisons(source, settings, o)[settings[i].name] == Compare(source, settings[i], o)
    decreases |settings|
  {
    var last := |settings| - 1;
    if i < last {
      assert settings[..last][i] == settings[i];
      ComparedAt(source, settings[..last], o, i);
      assert settings[i].name != settings[last].name;
    }
  }

  // ------------------------------------------------------------------------------ the findings

  predicate OpenAt(findings: seq<Finding>, k: nat, name: FieldName) {
    k < |findings| && findings[k].field == name && findings[k].resolution.None?
  }

  predicate IsOpen(findings: seq<Finding>, name: FieldName) {
    exists k: nat :: k < |findings| && OpenAt(findings, k, name)
  }

  /** The open finding for a field, or the end of the list. */
  function OpenIndex(findings: seq<Finding>, name: FieldName): (k: nat)
    ensures k <= |findings|
    ensures k < |findings| ==> OpenAt(findings, k, name)
    ensures k == |findings| ==> !IsOpen(findings, name)
  {
    if findings == [] then 0
    else if OpenAt(findings, 0, name) then 0
    else
      var k := OpenIndex(findings[1..], name);
      assert forall j: nat :: 0 < j < |findings| ==> findings[j] == findings[1..][j - 1];
      assert forall j: nat :: 0 < j < |findings| && OpenAt(findings, j, name) ==> OpenAt(findings[1..], j - 1, name);
      k + 1
  }

  function Resolved(f: Finding, resolution: Resolution, now: nat): Finding {
    f.(resolution := Some(resolution), updatedAt := now)
  }

  /** What one field's comparison does to the claims: agreement resolves the open one, naming
      whichever of the two things moved; a difference opens or refreshes it; an unreadable value
      opens nothing and settles nothing. */
  function Judge(findings: seq<Finding>, intent: Intent, setting: Setting, o: Option<Observation>,
                 revised: set<FieldName>, now: nat): seq<Finding> {
    var k := OpenIndex(findings, setting.name);
    match Compare(intent.source, setting, o)
    case Matches =>
      if k == |findings| then findings
      else
        findings[k := Resolved(findings[k],
                               if setting.name in revised then IntentRevised else ObservedMatchesIntent(o.value.id),
                               now)]
    case Differs =>
      var observed := o.value.values[setting.name];
      if k == |findings| then
        findings + [Finding(setting.name, intent.id, setting.value, Some(observed), Differs, now, now, None)]
      else
        findings[k := Finding(setting.name, intent.id, setting.value, Some(observed), Differs, now, now, None)]
    case Unknown =>
      if k == |findings| then findings
      else
        findings[k := Finding(setting.name, intent.id, setting.value, None, Unknown, findings[k].seenAt, now, None)]
  }

  function JudgeFrom(findings: seq<Finding>, intent: Intent, o: Option<Observation>, revised: set<FieldName>,
                     now: nat, n: nat): seq<Finding>
    requires n <= |intent.settings|
  {
    if n == 0 then findings
    else Judge(JudgeFrom(findings, intent, o, revised, now, n - 1), intent, intent.settings[n - 1], o, revised, now)
  }

  function Evaluate(s: State, intent: Intent, revised: set<FieldName>, now: nat): State {
    s.(findings := JudgeFrom(s.findings, intent, s.observation, revised, now, |intent.settings|),
       history := s.history + [Evaluation(now, Comparisons(intent.source, intent.settings, s.observation))])
  }

  // ------------------------------------------------------------------------------ the requests

  function Lookup(intents: seq<Intent>, id: IntentId): (i: Option<Intent>)
    ensures i.Some? ==> i.value in intents && i.value.id == id
    ensures i.None? ==> forall k :: 0 <= k < |intents| ==> intents[k].id != id
  {
    if intents == [] then None
    else if intents[|intents| - 1].id == id then Some(intents[|intents| - 1])
    else Lookup(intents[..|intents| - 1], id)
  }

  predicate Unused(intents: seq<Intent>, id: IntentId) {
    forall k :: 0 <= k < |intents| ==> intents[k].id != id
  }

  /** The highest version there is, plus one. */
  function NextVersion(intents: seq<Intent>): (v: nat)
    ensures forall k :: 0 <= k < |intents| ==> intents[k].version < v
  {
    if intents == [] then 1
    else
      var before := NextVersion(intents[..|intents| - 1]);
      if intents[|intents| - 1].version >= before then intents[|intents| - 1].version + 1 else before
  }

  function Newest(intents: seq<Intent>): Option<IntentId> {
    if intents == [] then None else Some(intents[|intents| - 1].id)
  }

  /** Adoption retains what was just verified. `captured` is the controlled fields with the
      values they were read with. */
  predicate Adoptable(s: State, allowed: bool, captured: seq<Setting>) {
    && s.stance == Observed
    && s.observation.Some?
    && allowed
    && captured != []
    && Distinct(captured)
    && forall i :: 0 <= i < |captured| ==>
         captured[i].name in s.observation.value.values
         && s.observation.value.values[captured[i].name] == captured[i].value
  }

  function Adopt(s: State, id: IntentId, allowed: bool, captured: seq<Setting>, now: nat): State {
    if !Adoptable(s, allowed, captured) || !Unused(s.intents, id) then s
    else
      var intent := Intent(id, NextVersion(s.intents), Newest(s.intents), s.observation.value.source, captured);
      Evaluate(s.(stance := Managed, active := Some(id), intents := s.intents + [intent], history := []),
               intent, {}, now)
  }

  datatype Revision = Explicit(requested: map<FieldName, int>) | RuntimeAdoption

  /** The settings a revision would retain: the same fields, with the values asked for or read. */
  function Planned(settings: seq<Setting>, revision: Revision, o: Observation): seq<Setting> {
    seq(|settings|, i requires 0 <= i < |settings| =>
      var values := if revision.Explicit? then revision.requested else o.values;
      if settings[i].name in values then settings[i].(value := values[settings[i].name]) else settings[i])
  }

  predicate Plannable(settings: seq<Setting>, revision: Revision, o: Observation) {
    && Planned(settings, revision, o) != settings
    && match revision
       case Explicit(requested) => forall name :: name in requested ==> Controls(settings, name)
       case RuntimeAdoption => forall i :: 0 <= i < |settings| ==> settings[i].name in o.values
  }

  function Changed(before: seq<Setting>, after: seq<Setting>): set<FieldName>
    requires |before| == |after|
  {
    set i | 0 <= i < |before| && before[i] != after[i] :: before[i].name
  }

  /** A revision is accepted only against the version it was written for. */
  predicate Revisable(s: State, expected: IntentId, version: Option<nat>, allowed: bool, revision: Revision) {
    && s.stance == Managed
    && s.active.Some?
    && var active := Lookup(s.intents, s.active.value);
       && active.Some?
       && active.value.id == expected
       && (version.Some? ==> active.value.version == version.value)
       && s.observation.Some?
       && s.observation.value.source == active.value.source
       && allowed
       && Plannable(active.value.settings, revision, s.observation.value)
  }

  function Revise(s: State, id: IntentId, expected: IntentId, version: Option<nat>, allowed: bool,
                  revision: Revision, now: nat): State {
    if !Revisable(s, expected, version, allowed, revision) || !Unused(s.intents, id) then s
    else
      var active := Lookup(s.intents, s.active.value).value;
      var settings := Planned(active.settings, revision, s.observation.value);
      var intent := Intent(id, NextVersion(s.intents), Some(active.id), s.observation.value.source, settings);
      Evaluate(s.(active := Some(id), intents := s.intents + [intent]), intent, Changed(active.settings, settings), now)
  }

  function ReleaseAll(findings: seq<Finding>, now: nat): (r: seq<Finding>)
    ensures |r| == |findings|
  {
    seq(|findings|, i requires 0 <= i < |findings| =>
      if findings[i].resolution.None? then Resolved(findings[i], IntentReleased, now) else findings[i])
  }

  predicate Releasable(s: State) {
    s.stance == Managed && s.active.Some? && Lookup(s.intents, s.active.value).Some?
  }

  /** Release stops retaining intent; every open claim ends with it, and the intents stay. */
  function Release(s: State, now: nat): State {
    if !Releasable(s) then s
    else s.(stance := Observed, active := None, findings := ReleaseAll(s.findings, now))
  }

  /** A sweep brings a new reading; a managed object is evaluated against it in the same
      transaction. An object that is not managed takes the stance it is classified with. */
  function Sweep(s: State, o: Observation, observeOnly: bool, now: nat): State {
    var seen := s.(observation := Some(o),
                   stance := if s.stance == Managed then Managed else if observeOnly then ObserveOnly else Observed);
    if seen.stance != Managed || seen.active.None? then seen
    else
      match Lookup(seen.intents, seen.active.value)
      case Some(intent) => Evaluate(seen, intent, {}, now)
      case None => seen
  }

  datatype Operation =
    | AdoptOp(id: IntentId, allowed: bool, captured: seq<Setting>, now: nat)
    | ReviseOp(id: IntentId, expected: IntentId, version: Option<nat>, allowed: bool, revision: Revision, now: nat)
    | ReleaseOp(now: nat)
    | SweepOp(observation: Observation, observeOnly: bool, now: nat)

  function Step(s: State, op: Operation): State {
    match op
    case AdoptOp(id, allowed, captured, now) => Adopt(s, id, allowed, captured, now)
    case ReviseOp(id, expected, version, allowed, revision, now) =>
      Revise(s, id, expected, version, allowed, revision, now)
    case ReleaseOp(now) => Release(s, now)
    case SweepOp(o, observeOnly, now) => Sweep(s, o, observeOnly, now)
  }

  function Run(s: State, ops: seq<Operation>): State
    decreases |ops|
  {
    if ops == [] then s else Run(Step(s, ops[0]), ops[1..])
  }

  ghost predicate Reachable(s: State) {
    exists ops :: Run(UNSEEN, ops) == s
  }

  // ---------------------------------------------------------------------------- the invariant

  /** The intents are one chain: versions count up from one and each names the one before it. */
  predicate Chain(intents: seq<Intent>) {
    forall k: nat :: k < |intents| ==> Linked(intents, k)
  }

  predicate Linked(intents: seq<Intent>, k: nat)
    requires k < |intents|
  {
    && intents[k].version == k + 1
    && intents[k].supersedes == (if k == 0 then None else Some(intents[k - 1].id))
    && Distinct(intents[k].settings)
  }

  predicate DistinctIds(intents: seq<Intent>) {
    forall j, k :: 0 <= j < k < |intents| ==> intents[j].id != intents[k].id
  }

  predicate ActiveIsNewest(s: State) {
    && (s.stance == Managed <==> s.active.Some?)
    && (s.active.Some? ==> s.active == Newest(s.intents))
  }

  predicate ChainOk(s: State) {
    Chain(s.intents) && DistinctIds(s.intents) && ActiveIsNewest(s)
  }

  /** The latest comparison of a field that could be made, and when. */
  function LatestKnown(history: seq<Evaluation>, name: FieldName): Option<(nat, Comparison)> {
    if history == [] then None
    else
      var last := history[|history| - 1];
      if name in last.comparisons && last.comparisons[name] != Unknown then Some((last.at, last.comparisons[name]))
      else LatestKnown(history[..|history| - 1], name)
  }

  ghost predicate OnePerField(findings: seq<Finding>) {
    forall j: nat, k: nat, name :: OpenAt(findings, j, name) && OpenAt(findings, k, name) ==> j == k
  }

  /** The open findings are what a fold over the evaluations says they should be: one for a
      field exactly when the latest comparison of it that could be made was a difference, last
      proved when that was. */
  ghost predicate FoldOk(findings: seq<Finding>, history: seq<Evaluation>, settings: seq<Setting>) {
    && OnePerField(findings)
    && (forall name :: IsOpen(findings, name) <==>
          LatestKnown(history, name).Some? && LatestKnown(history, name).value.1 == Differs)
    && (forall k: nat, name :: OpenAt(findings, k, name) ==>
          LatestKnown(history, name).Some? && findings[k].seenAt == LatestKnown(history, name).value.0)
    && (forall name :: IsOpen(findings, name) ==> Controls(settings, name))
  }

  ghost predicate AllCite(findings: seq<Finding>, id: IntentId) {
    forall k: nat, name :: OpenAt(findings, k, name) ==> findings[k].intent == id
  }

  ghost predicate FindingsOk(s: State) {
    if s.stance == Managed && s.intents != [] then
      var newest := s.intents[|s.intents| - 1];
      FoldOk(s.findings, s.history, newest.settings) && AllCite(s.findings, newest.id)
    else OnePerField(s.findings) && forall name :: !IsOpen(s.findings, name)
  }

  ghost predicate Ok(s: State) {
    ChainOk(s) && FindingsOk(s)
  }

  // ---------------------------------------------------------------------- judging the findings

  ghost predicate Untouched(before: seq<Finding>, after: seq<Finding>, name: FieldName) {
    forall k: nat :: (OpenAt(after, k, name) <==> OpenAt(before, k, name))
                     && (OpenAt(after, k, name) ==> after[k] == before[k])
  }

  /** What a comparison of this field has done to its open finding. */
  ghost predicate Judged(before: seq<Finding>, after: seq<Finding>, name: FieldName, c: Comparison, intent: IntentId,
                         now: nat)
  {
    && (IsOpen(after, name) <==> c == Differs || (c == Unknown && IsOpen(before, name)))
    && (forall k: nat :: OpenAt(after, k, name) ==> after[k].intent == intent)
    && (forall k: nat :: OpenAt(after, k, name) && c == Differs ==> after[k].seenAt == now)
    && (forall k: nat :: OpenAt(after, k, name) && c == Unknown ==>
          OpenAt(before, k, name) && after[k].seenAt == before[k].seenAt)
  }

  /** What this reading says of one controlled field, in the reading's own terms. Where the intent's
      own source read it, there is an open finding exactly when the value is not the wanted one, and
      it states both; where not, nothing is opened and nothing is settled, and an open finding loses
      the value it no longer has evidence for but not the time it was last proved. */
  ghost predicate Tells(before: seq<Finding>, after: seq<Finding>, intent: Intent, setting: Setting,
                        o: Option<Observation>, now: nat)
  {
    var name := setting.name;
    if o.Some? && o.value.source == intent.source && name in o.value.values then
      var read := o.value.values[name];
      && (IsOpen(after, name) <==> read != setting.value)
      && forall k: nat :: OpenAt(after, k, name) ==>
                            after[k] == Finding(name, intent.id, setting.value, Some(read), Differs, now, now, None)
    else
      && (IsOpen(after, name) <==> IsOpen(before, name))
      && forall k: nat :: OpenAt(after, k, name) ==>
                            && OpenAt(before, k, name)
                            && after[k] == Finding(name, intent.id, setting.value, None, Unknown, before[k].seenAt, now,
                                                   None)
  }

  /** Every controlled field, and no other. */
  ghost predicate Reviewed(before: seq<Finding>, after: seq<Finding>, intent: Intent, o: Option<Observation>,
                           now: nat)
  {
    && OnePerField(after)
    && (forall i :: 0 <= i < |intent.settings| ==> Tells(before, after, intent, intent.settings[i], o, now))
    && (forall name :: !Controls(intent.settings, name) ==> Untouched(before, after, name))
  }

  /** So the comparison on record is the one that was made. */
  lemma ToldIsJudged(before: seq<Finding>, after: seq<Finding>, intent: Intent, setting: Setting,
                     o: Option<Observation>, now: nat)
    requires Tells(before, after, intent, setting, o, now)
    ensures Judged(before, after, setting.name, Compare(intent.source, setting, o), intent.id, now)
  {
  }

  lemma JudgeJudges(findings: seq<Finding>, intent: Intent, setting: Setting, o: Option<Observation>,
                    revised: set<FieldName>, now: nat)
    requires OnePerField(findings)
    ensures var after := Judge(findings, intent, setting, o, revised, now);
            && OnePerField(after)
            && Tells(findings, after, intent, setting, o, now)
            && forall name :: name != setting.name ==> Untouched(findings, after, name)
  {
    var after := Judge(findings, intent, setting, o, revised, now);
    var k := OpenIndex(findings, setting.name);
    if k < |findings| {
      assert OpenAt(findings, k, setting.name);
      ReplacedOne(findings, k, after[k], setting.name, after);
    } else if Compare(intent.source, setting, o) == Differs {
      AppendedOne(findings, after[k], setting.name, after);
    } else {
      forall name | name != setting.name ensures Untouched(findings, after, name) {}
    }
    assert IsOpen(findings, setting.name) <==> k < |findings|;
    assert k < |after| && Compare(intent.source, setting, o) != Matches ==> OpenAt(after, k, setting.name);
    assert IsOpen(after, setting.name) ==> exists j: nat :: j < |after| && OpenAt(after, j, setting.name);
  }

  /** The one open finding of a field gives way to another record for that field. */
  lemma ReplacedOne(findings: seq<Finding>, k: nat, f: Finding, name: FieldName, after: seq<Finding>)
    requires OnePerField(findings) && OpenAt(findings, k, name) && f.field == name
    requires after == findings[k := f]
    ensures OnePerField(after)
    ensures forall j: nat :: OpenAt(after, j, name) <==> j == k && f.resolution.None?
    ensures forall other :: other != name ==> Untouched(findings, after, other)
  {
    forall j: nat ensures OpenAt(after, j, name) <==> j == k && f.resolution.None? {
      assert OpenAt(findings, j, name) ==> j == k;
    }
    forall j: nat, i: nat, other | OpenAt(after, j, other) && OpenAt(after, i, other) ensures j == i {
      if other != name { assert OpenAt(findings, j, other) && OpenAt(findings, i, other); }
    }
  }

  lemma AppendedOne(findings: seq<Finding>, f: Finding, name: FieldName, after: seq<Finding>)
    requires OnePerField(findings) && !IsOpen(findings, name) && f.field == name && f.resolution.None?
    requires after == findings + [f]
    ensures OnePerField(after)
    ensures forall j: nat :: OpenAt(after, j, name) <==> j == |findings|
    ensures forall other :: other != name ==> Untouched(findings, after, other)
  {
    forall j: nat ensures OpenAt(after, j, name) <==> j == |findings| {
      assert j < |findings| ==> !OpenAt(findings, j, name);
    }
    forall j: nat, i: nat, other | OpenAt(after, j, other) && OpenAt(after, i, other) ensures j == i {
      if other != name { assert OpenAt(findings, j, other) && OpenAt(findings, i, other); }
    }
  }

  lemma UntouchedKeepsOpen(before: seq<Finding>, after: seq<Finding>, name: FieldName)
    requires Untouched(before, after, name)
    ensures IsOpen(after, name) <==> IsOpen(before, name)
  {
    if IsOpen(after, name) {
      var k: nat :| k < |after| && OpenAt(after, k, name);
      assert OpenAt(before, k, name);
    }
    if IsOpen(before, name) {
      var k: nat :| k < |before| && OpenAt(before, k, name);
      assert OpenAt(after, k, name);
    }
  }

  lemma UntouchedThenTold(f0: seq<Finding>, f1: seq<Finding>, f2: seq<Finding>, intent: Intent, setting: Setting,
                          o: Option<Observation>, now: nat)
    requires Untouched(f0, f1, setting.name) && Tells(f1, f2, intent, setting, o, now)
    ensures Tells(f0, f2, intent, setting, o, now)
  {
    UntouchedKeepsOpen(f0, f1, setting.name);
  }

  lemma ToldThenUntouched(f0: seq<Finding>, f1: seq<Finding>, f2: seq<Finding>, intent: Intent, setting: Setting,
                          o: Option<Observation>, now: nat)
    requires Tells(f0, f1, intent, setting, o, now) && Untouched(f1, f2, setting.name)
    ensures Tells(f0, f2, intent, setting, o, now)
  {
    UntouchedKeepsOpen(f1, f2, setting.name);
  }

  /** After judging the first `n` fields, each of them has been judged and nothing else touched. */
  lemma {:induction false} JudgeFromJudges(findings: seq<Finding>, intent: Intent, o: Option<Observation>,
                                           revised: set<FieldName>, now: nat, n: nat)
    requires OnePerField(findings) && Distinct(intent.settings) && n <= |intent.settings|
    ensures var after := JudgeFrom(findings, intent, o, revised, now, n);
            && OnePerField(after)
            && (forall i :: 0 <= i < n ==> Tells(findings, after, intent, intent.settings[i], o, now))
            && (forall name :: !Controls(intent.settings[..n], name) ==> Untouched(findings, after, name))
    decreases n
  {
    if n > 0 {
      var before := JudgeFrom(findings, intent, o, revised, now, n - 1);
      var after := JudgeFrom(findings, intent, o, revised, now, n);
      var last := intent.settings[n - 1];
      JudgeFromJudges(findings, intent, o, revised, now, n - 1);
      JudgeJudges(before, intent, last, o, revised, now);
      hide Judge, Tells, Untouched, OnePerField;
      forall i | 0 <= i < n ensures Tells(findings, after, intent, intent.settings[i], o, now) {
        if i == n - 1 {
          assert !Controls(intent.settings[..n - 1], last.name);
          UntouchedThenTold(findings, before, after, intent, last, o, now);
        } else {
          ToldThenUntouched(findings, before, after, intent, intent.settings[i], o, now);
        }
      }
      forall name | !Controls(intent.settings[..n], name) ensures Untouched(findings, after, name) {
        FewerControlled(intent.settings, n, name);
        UntouchedTwice(findings, before, after, name);
      }
    }
  }

  lemma FewerControlled(settings: seq<Setting>, n: nat, name: FieldName)
    requires 0 < n <= |settings| && !Controls(settings[..n], name)
    ensures !Controls(settings[..n - 1], name) && settings[n - 1].name != name
  {
    assert settings[..n][n - 1] == settings[n - 1];
    assert forall i :: 0 <= i < n - 1 ==> settings[..n - 1][i] == settings[..n][i];
  }

  lemma UntouchedTwice(f0: seq<Finding>, f1: seq<Finding>, f2: seq<Finding>, name: FieldName)
    requires Untouched(f0, f1, name) && Untouched(f1, f2, name)
    ensures Untouched(f0, f2, name)
  {
  }

  // ------------------------------------------------------------------------------- preservation

  lemma LatestAppend(history: seq<Evaluation>, e: Evaluation, name: FieldName)
    ensures LatestKnown(history + [e], name)
         == if name in e.comparisons && e.comparisons[name] != Unknown then Some((e.at, e.comparisons[name]))
            else LatestKnown(history, name)
  {
    assert (history + [e])[..|history|] == history;
  }

  /** What an evaluation leaves true of one field. */
  ghost predicate FieldOk(findings: seq<Finding>, history: seq<Evaluation>, settings: seq<Setting>, id: IntentId,
                          name: FieldName) {
    var latest := LatestKnown(history, name);
    && (IsOpen(findings, name) <==> latest.Some? && latest.value.1 == Differs)
    && (forall k: nat :: OpenAt(findings, k, name) ==>
          findings[k].intent == id && latest.Some? && findings[k].seenAt == latest.value.0)
    && (IsOpen(findings, name) ==> Controls(settings, name))
  }

  lemma EvaluateField(s: State, intent: Intent, revised: set<FieldName>, now: nat, name: FieldName)
    requires Distinct(intent.settings) && FoldOk(s.findings, s.history, intent.settings)
    ensures var s' := Evaluate(s, intent, revised, now);
            FieldOk(s'.findings, s'.history, intent.settings, intent.id, name)
  {
    var s' := Evaluate(s, intent, revised, now);
    var c := Comparisons(intent.source, intent.settings, s.observation);
    var e := Evaluation(now, c);
    JudgeFromJudges(s.findings, intent, s.observation, revised, now, |intent.settings|);
    assert intent.settings[..|intent.settings|] == intent.settings;
    ComparedIsControlled(intent.source, intent.settings, s.observation, name);
    hide JudgeFrom, Compare, Distinct, Comparisons, Judged, Tells, Untouched, FieldOk, LatestKnown;
    if Controls(intent.settings, name) {
      var i :| 0 <= i < |intent.settings| && intent.settings[i].name == name;
      ToldIsJudged(s.findings, s'.findings, intent, intent.settings[i], s.observation, now);
      ComparedAt(intent.source, intent.settings, s.observation, i);
      FieldIsJudged(s.findings, s'.findings, s.history, e, intent.settings, intent.id, name);
    } else {
      FieldIsUntouched(s.findings, s'.findings, s.history, e, intent.settings, intent.id, name);
    }
  }

  lemma FieldIsJudged(before: seq<Finding>, after: seq<Finding>, history: seq<Evaluation>, e: Evaluation,
                      settings: seq<Setting>, id: IntentId, name: FieldName)
    requires FoldOk(before, history, settings) && Controls(settings, name) && name in e.comparisons
    requires Judged(before, after, name, e.comparisons[name], id, e.at)
    ensures FieldOk(after, history + [e], settings, id, name)
  {
    LatestAppend(history, e, name);
    hide LatestKnown, OnePerField, Controls;
  }

  lemma FieldIsUntouched(before: seq<Finding>, after: seq<Finding>, history: seq<Evaluation>, e: Evaluation,
                         settings: seq<Setting>, id: IntentId, name: FieldName)
    requires FoldOk(before, history, settings) && !Controls(settings, name) && name !in e.comparisons
    requires Untouched(before, after, name)
    ensures FieldOk(after, history + [e], settings, id, name)
  {
    LatestAppend(history, e, name);
    UntouchedKeepsOpen(before, after, name);
    hide LatestKnown, OnePerField, Controls;
    forall k: nat ensures OpenAt(after, k, name) ==> IsOpen(after, name) {}
  }

  lemma FieldsMakeFold(findings: seq<Finding>, history: seq<Evaluation>, settings: seq<Setting>, id: IntentId)
    requires OnePerField(findings) && forall name :: FieldOk(findings, history, settings, id, name)
    ensures FoldOk(findings, history, settings) && AllCite(findings, id)
  {
    hide LatestKnown, OnePerField, Controls;
    forall name
      ensures IsOpen(findings, name) <==>
                LatestKnown(history, name).Some? && LatestKnown(history, name).value.1 == Differs
      ensures IsOpen(findings, name) ==> Controls(settings, name)
    {
      assert FieldOk(findings, history, settings, id, name);
    }
    forall k: nat, name | OpenAt(findings, k, name)
      ensures LatestKnown(history, name).Some? && findings[k].seenAt == LatestKnown(history, name).value.0
      ensures findings[k].intent == id
    {
      assert FieldOk(findings, history, settings, id, name);
    }
  }

  /** One evaluation brings the claims back into line with the fold, all citing this intent. */
  lemma EvaluateKeepsFold(s: State, intent: Intent, revised: set<FieldName>, now: nat)
    requires Distinct(intent.settings) && FoldOk(s.findings, s.history, intent.settings)
    ensures var s' := Evaluate(s, intent, revised, now);
            && FoldOk(s'.findings, s'.history, intent.settings)
            && AllCite(s'.findings, intent.id)
  {
    var s' := Evaluate(s, intent, revised, now);
    JudgeFromJudges(s.findings, intent, s.observation, revised, now, |intent.settings|);
    assert OnePerField(s'.findings);
    hide FoldOk, AllCite, OnePerField, JudgeFrom;
    forall name ensures FieldOk(s'.findings, s'.history, intent.settings, intent.id, name) {
      EvaluateField(s, intent, revised, now, name);
    }
    FieldsMakeFold(s'.findings, s'.history, intent.settings, intent.id);
  }

  lemma {:induction false} ChainVersion(intents: seq<Intent>)
    requires Chain(intents)
    ensures NextVersion(intents) == |intents| + 1
    decreases |intents|
  {
    if intents != [] {
      var rest := intents[..|intents| - 1];
      forall k: nat | k < |rest| ensures Linked(rest, k) { assert Linked(intents, k); }
      ChainVersion(rest);
      assert Linked(intents, |intents| - 1);
    }
  }

  lemma LookupIsUnique(intents: seq<Intent>, k: nat)
    requires DistinctIds(intents) && k < |intents|
    ensures Lookup(intents, intents[k].id) == Some(intents[k])
  {
    var found := Lookup(intents, intents[k].id).value;
    var j :| 0 <= j < |intents| && intents[j] == found;
    assert j == k || j < k || k < j;
  }

  /** A new intent on the end, naming the newest before it, keeps the chain. */
  lemma AppendKeepsChain(intents: seq<Intent>, intent: Intent)
    requires Chain(intents) && DistinctIds(intents) && Unused(intents, intent.id)
    requires intent.version == NextVersion(intents) && intent.supersedes == Newest(intents)
    requires Distinct(intent.settings)
    ensures Chain(intents + [intent]) && DistinctIds(intents + [intent])
    ensures Newest(intents + [intent]) == Some(intent.id)
  {
    ChainVersion(intents);
    hide NextVersion;
    forall k: nat | k < |intents| + 1 ensures Linked(intents + [intent], k) {
      if k < |intents| { LinkStays(intents, intent, k); }
    }
  }

  lemma LinkStays(intents: seq<Intent>, intent: Intent, k: nat)
    requires k < |intents| && Linked(intents, k)
    ensures Linked(intents + [intent], k)
  {
  }

  /** Evaluating the newest intent of a sound chain leaves everything sound. */
  lemma EvaluatedIsOk(s: State, intent: Intent, revised: set<FieldName>, now: nat)
    requires ChainOk(s) && s.stance == Managed && s.intents != [] && intent == s.intents[|s.intents| - 1]
    requires FoldOk(s.findings, s.history, intent.settings)
    ensures Ok(Evaluate(s, intent, revised, now))
  {
    assert Linked(s.intents, |s.intents| - 1);
    EvaluateKeepsFold(s, intent, revised, now);
    hide FoldOk, AllCite, Chain, DistinctIds, JudgeFrom, Comparisons;
  }

  lemma AdoptKeepsOk(s: State, id: IntentId, allowed: bool, captured: seq<Setting>, now: nat)
    requires Ok(s)
    ensures Ok(Adopt(s, id, allowed, captured, now))
  {
    if Adoptable(s, allowed, captured) && Unused(s.intents, id) {
      var intent := Intent(id, NextVersion(s.intents), Newest(s.intents), s.observation.value.source, captured);
      AppendKeepsChain(s.intents, intent);
      var adopted := s.(stance := Managed, active := Some(id), intents := s.intents + [intent], history := []);
      assert FoldOk(adopted.findings, adopted.history, captured) by {
        forall k: nat, name ensures OpenAt(adopted.findings, k, name) ==> IsOpen(adopted.findings, name) {}
      }
      hide FoldOk, Chain, DistinctIds, Evaluate;
      EvaluatedIsOk(adopted, intent, {}, now);
    }
  }

  lemma PlannedKeepsFields(settings: seq<Setting>, revision: Revision, o: Observation)
    ensures |Planned(settings, revision, o)| == |settings|
    ensures Distinct(settings) ==> Distinct(Planned(settings, revision, o))
    ensures forall name :: Controls(Planned(settings, revision, o), name) <==> Controls(settings, name)
  {
    var planned := Planned(settings, revision, o);
    assert forall i :: 0 <= i < |settings| ==> planned[i].name == settings[i].name;
    forall name ensures Controls(planned, name) <==> Controls(settings, name) {
      if Controls(settings, name) {
        var i :| 0 <= i < |settings| && settings[i].name == name;
        assert planned[i].name == name;
      }
    }
  }

  lemma ReviseKeepsOk(s: State, id: IntentId, expected: IntentId, version: Option<nat>, allowed: bool,
                      revision: Revision, now: nat)
    requires Ok(s)
    ensures Ok(Revise(s, id, expected, version, allowed, revision, now))
  {
    if Revisable(s, expected, version, allowed, revision) && Unused(s.intents, id) {
      LookupIsUnique(s.intents, |s.intents| - 1);
      var active := s.intents[|s.intents| - 1];
      var settings := Planned(active.settings, revision, s.observation.value);
      assert Linked(s.intents, |s.intents| - 1);
      PlannedKeepsFields(active.settings, revision, s.observation.value);
      var intent := Intent(id, NextVersion(s.intents), Some(active.id), s.observation.value.source, settings);
      AppendKeepsChain(s.intents, intent);
      var revised := s.(active := Some(id), intents := s.intents + [intent]);
      assert FoldOk(revised.findings, revised.history, settings);
      hide FoldOk, Chain, DistinctIds, Evaluate, Planned, Changed;
      EvaluatedIsOk(revised, intent, Changed(active.settings, settings), now);
    }
  }

  lemma ReleasedIsClosed(findings: seq<Finding>, now: nat)
    ensures OnePerField(ReleaseAll(findings, now)) && forall name :: !IsOpen(ReleaseAll(findings, now), name)
  {
    assert forall k :: 0 <= k < |findings| ==> ReleaseAll(findings, now)[k].resolution.Some?;
  }

  lemma SweepKeepsOk(s: State, o: Observation, observeOnly: bool, now: nat)
    requires Ok(s)
    ensures Ok(Sweep(s, o, observeOnly, now))
  {
    if s.stance == Managed {
      var newest := s.intents[|s.intents| - 1];
      LookupIsUnique(s.intents, |s.intents| - 1);
      EvaluatedIsOk(s.(observation := Some(o)), newest, {}, now);
      hide Ok, Evaluate, Lookup;
    }
  }

  lemma StepKeepsOk(s: State, op: Operation)
    requires Ok(s)
    ensures Ok(Step(s, op))
  {
    hide Ok, Adopt, Revise, Sweep;
    match op
    case AdoptOp(id, allowed, captured, now) => AdoptKeepsOk(s, id, allowed, captured, now);
    case ReviseOp(id, expected, version, allowed, revision, now) =>
      ReviseKeepsOk(s, id, expected, version, allowed, revision, now);
    case ReleaseOp(now) => ReleaseKeepsOk(s, now);
    case SweepOp(o, observeOnly, now) => SweepKeepsOk(s, o, observeOnly, now);
  }

  lemma ReleaseKeepsOk(s: State, now: nat)
    requires Ok(s)
    ensures Ok(Release(s, now))
  {
    ReleasedIsClosed(s.findings, now);
    hide ReleaseAll, FoldOk;
  }

  lemma {:induction false} RunKeepsOk(s: State, ops: seq<Operation>)
    requires Ok(s)
    ensures Ok(Run(s, ops))
    decreases |ops|
  {
    hide Ok, Step;
    if ops != [] {
      StepKeepsOk(s, ops[0]);
      RunKeepsOk(Step(s, ops[0]), ops[1..]);
    }
  }

  lemma ReachableIsOk(s: State)
    requires Reachable(s)
    ensures Ok(s)
  {
    var ops :| Run(UNSEEN, ops) == s;
    assert Ok(UNSEEN);
    RunKeepsOk(UNSEEN, ops);
  }

  // ------------------------------------------------------------------------- what it promises

  /** Intent history is one chain: versions count up without a gap, each names the one it
      replaced, and a managed object is one whose intent in force is the newest. */
  lemma IntentsAreOneChain(s: State)
    requires Reachable(s)
    ensures forall j, k :: 0 <= j < k < |s.intents| ==> s.intents[j].version < s.intents[k].version
    ensures forall k :: 0 < k < |s.intents| ==> s.intents[k].supersedes == Some(s.intents[k - 1].id)
    ensures s.stance == Managed <==> s.active.Some?
    ensures s.active.Some? ==> s.intents != [] && s.active.value == s.intents[|s.intents| - 1].id
  {
    ReachableIsOk(s);
    assert forall k: nat :: k < |s.intents| ==> Linked(s.intents, k);
    forall j: nat, k: nat | j < k < |s.intents| ensures s.intents[j].version < s.intents[k].version {
      assert Linked(s.intents, j) && Linked(s.intents, k);
    }
    forall k: nat | 0 < k < |s.intents| ensures s.intents[k].supersedes == Some(s.intents[k - 1].id) {
      assert Linked(s.intents, k);
    }
  }

  /** The findings are a fold: an object has exactly one open finding for a field when it is
      managed and the latest comparison of that field that could be made, since it was adopted,
      was a difference; it has none otherwise, and every open one cites the intent in force and
      was last seen when the difference was. */
  lemma FindingsAreTheFold(s: State, name: FieldName)
    requires Reachable(s)
    ensures IsOpen(s.findings, name) <==>
              s.stance == Managed
              && LatestKnown(s.history, name).Some? && LatestKnown(s.history, name).value.1 == Differs
    ensures forall j: nat, k: nat :: OpenAt(s.findings, j, name) && OpenAt(s.findings, k, name) ==> j == k
    ensures forall k: nat :: OpenAt(s.findings, k, name) ==>
              s.active == Some(s.findings[k].intent)
              && LatestKnown(s.history, name).Some? && s.findings[k].seenAt == LatestKnown(s.history, name).value.0
  {
    ReachableIsOk(s);
    hide LatestKnown;
    forall k: nat ensures OpenAt(s.findings, k, name) ==> IsOpen(s.findings, name) {}
  }

  lemma StepKeepsIntents(s: State, op: Operation)
    ensures s.intents <= Step(s, op).intents
  {
    hide JudgeFrom, Planned, Revisable, Adoptable;
  }

  predicate Superseded(intents: seq<Intent>, id: IntentId) {
    exists k :: 0 <= k < |intents| - 1 && intents[k].id == id
  }

  lemma SupersededStays(before: seq<Intent>, after: seq<Intent>, id: IntentId)
    requires Superseded(before, id) && before <= after
    ensures Superseded(after, id)
  {
    var k :| 0 <= k < |before| - 1 && before[k].id == id;
    assert after[k].id == id;
  }

  lemma {:induction false} RunKeepsSuperseded(s: State, ops: seq<Operation>, id: IntentId)
    requires Superseded(s.intents, id)
    ensures Superseded(Run(s, ops).intents, id)
    decreases |ops|
  {
    hide Step, Superseded;
    if ops != [] {
      StepKeepsIntents(s, ops[0]);
      SupersededStays(s.intents, Step(s, ops[0]).intents, id);
      RunKeepsSuperseded(Step(s, ops[0]), ops[1..], id);
    }
  }

  lemma SupersededIsRefused(s: State, id: IntentId, expected: IntentId, version: Option<nat>, allowed: bool,
                            revision: Revision, now: nat)
    requires Ok(s) && Superseded(s.intents, expected)
    ensures Revise(s, id, expected, version, allowed, revision, now) == s
  {
    if s.stance == Managed {
      LookupIsUnique(s.intents, |s.intents| - 1);
    }
  }

  /** Of any revisions written against the same intent, at most one commits, whatever happens
      between them. */
  lemma OneRevisionCommits(s: State, first: Operation, ops: seq<Operation>, second: Operation)
    requires Reachable(s) && first.ReviseOp? && second.ReviseOp? && first.expected == second.expected
    requires Step(s, first).intents != s.intents
    ensures Step(Run(Step(s, first), ops), second) == Run(Step(s, first), ops)
  {
    ReachableIsOk(s);
    FirstSupersedes(s, first);
    StepKeepsOk(s, first);
    RunKeepsOk(Step(s, first), ops);
    RunKeepsSuperseded(Step(s, first), ops, first.expected);
    var later := Run(Step(s, first), ops);
    hide Ok, Run, Revise, Superseded;
    SupersededIsRefused(later, second.id, second.expected, second.version, second.allowed, second.revision, second.now);
  }

  lemma FirstSupersedes(s: State, first: Operation)
    requires Ok(s) && first.ReviseOp? && Step(s, first).intents != s.intents
    ensures Superseded(Step(s, first).intents, first.expected)
  {
    LookupIsUnique(s.intents, |s.intents| - 1);
    var after := Step(s, first).intents;
    assert after[|s.intents| - 1] == s.intents[|s.intents| - 1];
    assert after[|s.intents| - 1].id == first.expected;
  }

  // ------------------------------------------------------------------ what ended a disagreement

  /** Findings only ever move forward: none is dropped or moves to another field, a resolved one
      is never touched again, and one that is resolved by an evaluation names what moved: the
      intent if the revision changed that field, this observation otherwise. */
  predicate Evolves(before: seq<Finding>, after: seq<Finding>, o: Option<Observation>, revised: set<FieldName>) {
    && |before| <= |after|
    && forall k :: 0 <= k < |before| ==>
         && after[k].field == before[k].field
         && (before[k].resolution.Some? ==> after[k] == before[k])
         && (before[k].resolution.None? && after[k].resolution.Some? ==>
               if before[k].field in revised then after[k].resolution == Some(IntentRevised)
               else o.Some? && after[k].resolution == Some(ObservedMatchesIntent(o.value.id)))
  }

  lemma EvolvesTwice(f0: seq<Finding>, f1: seq<Finding>, f2: seq<Finding>, o: Option<Observation>,
                     revised: set<FieldName>)
    requires Evolves(f0, f1, o, revised) && Evolves(f1, f2, o, revised)
    ensures Evolves(f0, f2, o, revised)
  {
    forall k | 0 <= k < |f0|
      ensures f2[k].field == f0[k].field
      ensures f0[k].resolution.Some? ==> f2[k] == f0[k]
      ensures f0[k].resolution.None? && f2[k].resolution.Some? ==>
                if f0[k].field in revised then f2[k].resolution == Some(IntentRevised)
                else o.Some? && f2[k].resolution == Some(ObservedMatchesIntent(o.value.id))
    {
      assert f1[k].field == f0[k].field;
    }
  }

  lemma {:induction false} JudgeFromEvolves(findings: seq<Finding>, intent: Intent, o: Option<Observation>,
                                            revised: set<FieldName>, now: nat, n: nat)
    requires n <= |intent.settings|
    ensures Evolves(findings, JudgeFrom(findings, intent, o, revised, now, n), o, revised)
    decreases n
  {
    if n > 0 {
      var before := JudgeFrom(findings, intent, o, revised, now, n - 1);
      JudgeFromEvolves(findings, intent, o, revised, now, n - 1);
      JudgeEvolves(before, intent, intent.settings[n - 1], o, revised, now);
      EvolvesTwice(findings, before, JudgeFrom(findings, intent, o, revised, now, n), o, revised);
    }
  }

  lemma JudgeEvolves(findings: seq<Finding>, intent: Intent, setting: Setting, o: Option<Observation>,
                     revised: set<FieldName>, now: nat)
    ensures Evolves(findings, Judge(findings, intent, setting, o, revised, now), o, revised)
  {
  }

  /** The fields the intent in force now wants another value for. */
  function Moved(before: seq<Intent>, after: seq<Intent>): set<FieldName> {
    if before == [] || after == [] then {}
    else
      var was, wanted := before[|before| - 1].settings, after[|after| - 1].settings;
      set i | 0 <= i < |was| && i < |wanted| && was[i] != wanted[i] :: was[i].name
  }

  /** A disagreement ended by a sweep is credited to that sweep's reading; one ended by a
      revision is credited to the revision for exactly the fields it moved, and to the reading
      for the ones it left alone. */
  lemma EndingsAreAttributed(s: State, op: Operation)
    requires Reachable(s) && (op.SweepOp? || op.ReviseOp?)
    ensures Evolves(s.findings, Step(s, op).findings, Step(s, op).observation,
                    Moved(s.intents, Step(s, op).intents))
    ensures op.SweepOp? ==> Moved(s.intents, Step(s, op).intents) == {}
  {
    ReachableIsOk(s);
    var s' := Step(s, op);
    if s'.findings != s.findings {
      LookupIsUnique(s.intents, |s.intents| - 1);
      var newest := s.intents[|s.intents| - 1];
      var intent := s'.intents[|s'.intents| - 1];
      var moved := Changed(newest.settings, intent.settings);
      assert Moved(s.intents, s'.intents) == moved;
      JudgeFromEvolves(s.findings, intent, s'.observation, moved, op.now, |intent.settings|);
      assert op.SweepOp? ==> moved == {};
    }
  }

  // --------------------------------------------------------- what each request says, by the reading

  lemma EvaluationReviews(s: State, intent: Intent, revised: set<FieldName>, now: nat)
    requires OnePerField(s.findings) && Distinct(intent.settings)
    ensures Reviewed(s.findings, Evaluate(s, intent, revised, now).findings, intent, s.observation, now)
  {
    JudgeFromJudges(s.findings, intent, s.observation, revised, now, |intent.settings|);
    assert intent.settings[..|intent.settings|] == intent.settings;
    hide JudgeFrom, Tells, Untouched, OnePerField;
  }

  /** A managed object has an intent in force, the newest, and a sweep's reading is judged by it. */
  lemma SweepReviews(s: State, o: Observation, observeOnly: bool, now: nat)
    requires Ok(s)
    ensures var s' := Sweep(s, o, observeOnly, now);
            && s'.intents == s.intents && s'.active == s.active && s'.observation == Some(o)
            && (s.stance == Managed ==>
                  && s'.stance == Managed && s.intents != []
                  && Reviewed(s.findings, s'.findings, s.intents[|s.intents| - 1], Some(o), now))
            && (s.stance != Managed ==>
                  && s'.stance == (if observeOnly then ObserveOnly else Observed)
                  && s'.findings == s.findings)
  {
    if s.stance == Managed {
      var newest := s.intents[|s.intents| - 1];
      LookupIsUnique(s.intents, |s.intents| - 1);
      assert Linked(s.intents, |s.intents| - 1);
      EvaluationReviews(s.(observation := Some(o)), newest, {}, now);
      hide Reviewed, Chain, DistinctIds, FoldOk;
    }
  }

  /** What was adopted was just read, so nothing disagrees with it: no finding is open. */
  lemma AdoptionOpensNothing(s: State, id: IntentId, allowed: bool, captured: seq<Setting>, now: nat)
    requires Ok(s) && Adoptable(s, allowed, captured) && Unused(s.intents, id)
    ensures var s' := Adopt(s, id, allowed, captured, now);
            && s'.stance == Managed && s'.active == Some(id) && s'.observation == s.observation
            && s'.intents == s.intents + [Intent(id, |s.intents| + 1,
                                                 if s.intents == [] then None
                                                 else Some(s.intents[|s.intents| - 1].id),
                                                 s.observation.value.source, captured)]
            && forall name :: !IsOpen(s'.findings, name)
  {
    ChainVersion(s.intents);
    var intent := Intent(id, |s.intents| + 1, Newest(s.intents), s.observation.value.source, captured);
    var adopted := s.(stance := Managed, active := Some(id), intents := s.intents + [intent], history := []);
    EvaluationReviews(adopted, intent, {}, now);
    var after := Evaluate(adopted, intent, {}, now).findings;
    hide NextVersion, Evaluate, Chain, DistinctIds, OnePerField;
    forall name ensures !IsOpen(after, name) {
      if Controls(captured, name) {
        var i :| 0 <= i < |captured| && captured[i].name == name;
        assert Tells(s.findings, after, intent, intent.settings[i], s.observation, now);
      } else {
        UntouchedKeepsOpen(s.findings, after, name);
      }
    }
  }

  /** The same fields with other values: of an explicit revision those that were asked for, of a
      runtime adoption those that were read. */
  predicate Retains(settings: seq<Setting>, was: seq<Setting>, revision: Revision, o: Observation) {
    && |settings| == |was|
    && forall i :: 0 <= i < |was| ==>
         && settings[i].name == was[i].name
         && match revision
            case Explicit(requested) =>
              settings[i].value == if was[i].name in requested then requested[was[i].name] else was[i].value
            case RuntimeAdoption => was[i].name in o.values && settings[i].value == o.values[was[i].name]
  }

  /** A revision that is accepted becomes the next intent in force, and the reading it was made
      against is judged by it at once. */
  lemma RevisionReviews(s: State, id: IntentId, expected: IntentId, version: Option<nat>, allowed: bool,
                        revision: Revision, now: nat)
    requires Ok(s) && Revisable(s, expected, version, allowed, revision) && Unused(s.intents, id)
    ensures var s' := Revise(s, id, expected, version, allowed, revision, now);
            && s.intents != [] && |s'.intents| == |s.intents| + 1 && s'.intents[..|s.intents|] == s.intents
            && var was, intent := s.intents[|s.intents| - 1], s'.intents[|s.intents|];
               && intent == Intent(id, |s.intents| + 1, Some(was.id), s.observation.value.source, intent.settings)
               && was.id == expected && was.source == intent.source
               && Retains(intent.settings, was.settings, revision, s.observation.value)
               && intent.settings != was.settings
               && s'.stance == Managed && s'.active == Some(id) && s'.observation == s.observation
               && Reviewed(s.findings, s'.findings, intent, s.observation, now)
  {
    LookupIsUnique(s.intents, |s.intents| - 1);
    ChainVersion(s.intents);
    var active := s.intents[|s.intents| - 1];
    var settings := Planned(active.settings, revision, s.observation.value);
    assert Linked(s.intents, |s.intents| - 1);
    PlannedKeepsFields(active.settings, revision, s.observation.value);
    var intent := Intent(id, |s.intents| + 1, Some(active.id), s.observation.value.source, settings);
    var next := s.(active := Some(id), intents := s.intents + [intent]);
    EvaluationReviews(next, intent, Changed(active.settings, settings), now);
    hide NextVersion, Reviewed, Chain, DistinctIds, FoldOk, Changed;
  }

  // -------------------------------------------------------------------------- the object itself

  lemma {:induction false} RunAppend(s: State, ops: seq<Operation>, op: Operation)
    ensures Run(s, ops + [op]) == Step(Run(s, ops), op)
    decreases |ops|
  {
    hide Step;
    if ops == [] {
      assert [op][1..] == [];
    } else {
      assert (ops + [op])[1..] == ops[1..] + [op];
      RunAppend(Step(s, ops[0]), ops[1..], op);
    }
  }

  lemma StepIsReachable(s: State, op: Operation)
    requires Reachable(s)
    ensures Reachable(Step(s, op))
  {
    hide Step;
    var ops :| Run(UNSEEN, ops) == s;
    RunAppend(UNSEEN, ops, op);
  }

  /** One object and its records. Each request is one transaction, and `Valid` says that nothing but
      requests has happened to it. */
  class ManagedObject {
    var stance: Stance
    var active: Option<IntentId>
    var intents: seq<Intent>
    var findings: seq<Finding>
    var observation: Option<Observation>
    ghost var history: seq<Evaluation>

    constructor ()
      ensures Valid() && View() == UNSEEN
    {
      stance, active, intents, findings, observation, history := Observed, None, [], [], None, [];
      assert Run(UNSEEN, []) == UNSEEN;
    }

    ghost function View(): State
      reads this
    {
      State(stance, active, intents, findings, observation, history)
    }

    ghost predicate Valid()
      reads this
    {
      Reachable(View())
    }

    /** Compares every controlled field and brings its claim into line. */
    method EvaluateIntent(intent: Intent, revised: set<FieldName>, now: nat)
      modifies this`findings, this`history
      ensures View() == Evaluate(old(View()), intent, revised, now)
    {
      var i := 0;
      ghost var before := findings;
      while i < |intent.settings|
        invariant 0 <= i <= |intent.settings|
        invariant findings == JudgeFrom(before, intent, observation, revised, now, i)
        invariant history == old(history)
      {
        var setting := intent.settings[i];
        var k := FindOpen(setting.name);
        var comparison := Compare(intent.source, setting, observation);
        if comparison == Matches {
          if k < |findings| {
            var resolution := if setting.name in revised then IntentRevised
                              else ObservedMatchesIntent(observation.value.id);
            findings := findings[k := findings[k].(resolution := Some(resolution), updatedAt := now)];
          }
        } else if k == |findings| {
          if comparison == Differs {
            findings := findings + [Finding(setting.name, intent.id, setting.value,
                                            Some(observation.value.values[setting.name]), Differs, now, now, None)];
          }
        } else {
          var confirmed := comparison == Differs;
          findings := findings[k := Finding(setting.name, intent.id, setting.value,
                                            if confirmed then Some(observation.value.values[setting.name]) else None,
                                            comparison, if confirmed then now else findings[k].seenAt, now, None)];
        }
        i := i + 1;
      }
      history := history + [Evaluation(now, Comparisons(intent.source, intent.settings, observation))];
    }

    method FindOpen(name: FieldName) returns (k: nat)
      ensures k == OpenIndex(findings, name)
    {
      k := 0;
      while k < |findings| && !(findings[k].field == name && findings[k].resolution.None?)
        invariant k <= |findings|
        invariant OpenIndex(findings, name) == k + OpenIndex(findings[k..], name)
      {
        assert findings[k..][1..] == findings[k + 1..];
        k := k + 1;
      }
    }

    method AdoptNow(id: IntentId, allowed: bool, captured: seq<Setting>, now: nat) returns (adopted: bool)
      requires Valid()
      modifies this
      ensures Valid()
      ensures adopted <==>
                && old(stance) == Observed && old(observation).Some? && allowed && captured != []
                && Distinct(captured) && (forall k :: 0 <= k < |old(intents)| ==> old(intents)[k].id != id)
                && forall i :: 0 <= i < |captured| ==>
                     captured[i].name in old(observation).value.values
                     && old(observation).value.values[captured[i].name] == captured[i].value
      ensures !adopted ==> View() == old(View())
      ensures View() == Adopt(old(View()), id, allowed, captured, now)
      ensures adopted ==>
                && stance == Managed && active == Some(id) && observation == old(observation)
                && intents == old(intents) + [Intent(id, |old(intents)| + 1,
                                                     if old(intents) == [] then None
                                                     else Some(old(intents)[|old(intents)| - 1].id),
                                                     observation.value.source, captured)]
                && forall name :: !IsOpen(findings, name)
    {
      ghost var was := View();
      ReachableIsOk(was);
      StepIsReachable(was, AdoptOp(id, allowed, captured, now));
      hide Ok, Reachable, NextVersion, Evaluate;
      adopted := stance == Observed && observation.Some? && allowed && captured != [] && Distinct(captured)
                 && (forall i :: 0 <= i < |captured| ==>
                       captured[i].name in observation.value.values
                       && observation.value.values[captured[i].name] == captured[i].value)
                 && Unused(intents, id);
      if !adopted { return; }
      AdoptionOpensNothing(was, id, allowed, captured, now);
      var intent := Intent(id, NextVersion(intents), Newest(intents), observation.value.source, captured);
      intents := intents + [intent];
      stance, active := Managed, Some(id);
      history := [];
      EvaluateIntent(intent, {}, now);
    }

    /** A revision against a version that is no longer in force is refused, and so is one that would
        change nothing, name a field that is not controlled, or adopt one that was not read. */
    method ReviseNow(id: IntentId, expected: IntentId, version: Option<nat>, allowed: bool, revision: Revision,
                     now: nat)
      returns (revised: bool)
      requires Valid()
      modifies this
      ensures Valid()
      ensures View() == Revise(old(View()), id, expected, version, allowed, revision, now)
      ensures revised <==> Revisable(old(View()), expected, version, allowed, revision) && Unused(old(intents), id)
      ensures !revised ==> View() == old(View())
      ensures revised ==>
                && old(intents) != [] && |intents| == |old(intents)| + 1 && intents[..|old(intents)|] == old(intents)
                && var was, intent := old(intents)[|old(intents)| - 1], intents[|old(intents)|];
                   && intent == Intent(id, |old(intents)| + 1, Some(was.id), observation.value.source, intent.settings)
                   && was.id == expected && was.source == intent.source
                   && Retains(intent.settings, was.settings, revision, observation.value)
                   && intent.settings != was.settings
                   && stance == Managed && active == Some(id) && observation == old(observation)
                   && Reviewed(old(findings), findings, intent, observation, now)
    {
      ghost var before := View();
      ReachableIsOk(before);
      StepIsReachable(before, ReviseOp(id, expected, version, allowed, revision, now));
      hide Ok, Reachable, NextVersion, Evaluate, Reviewed, Retains, Changed, Chain, DistinctIds, Plannable, Planned;
      if stance != Managed || active.None? || !Unused(intents, id) || !allowed { return false; }
      var found := Lookup(intents, active.value);
      if found.None? { return false; }
      var current := found.value;
      if current.id != expected || (version.Some? && current.version != version.value) { return false; }
      if observation.None? || observation.value.source != current.source { return false; }
      var plannable, settings := Plan(current.settings, revision, observation.value);
      if !plannable { return false; }
      PlannedKeepsFields(current.settings, revision, observation.value);
      RevisionReviews(before, id, expected, version, allowed, revision, now);
      Supersede(id, current, settings, observation.value.source, now);
      revised := true;
    }

    /** The next version is in force, and judged by the reading it was made against. */
    method Supersede(id: IntentId, current: Intent, settings: seq<Setting>, source: Source, now: nat)
      requires |settings| == |current.settings|
      modifies this
      ensures var intent := Intent(id, NextVersion(old(intents)), Some(current.id), source, settings);
              View() == Evaluate(old(View()).(active := Some(id), intents := old(intents) + [intent]), intent,
                                 Changed(current.settings, settings), now)
    {
      hide Evaluate, NextVersion, Changed;
      var intent := Intent(id, NextVersion(intents), Some(current.id), source, settings);
      intents := intents + [intent];
      active := Some(id);
      EvaluateIntent(intent, Changed(current.settings, settings), now);
    }

    /** The fields a revision would retain, one after another; refused where it names a field that is
        not controlled, would adopt one that was not read, or changes nothing. */
    method Plan(settings: seq<Setting>, revision: Revision, o: Observation)
      returns (plannable: bool, planned: seq<Setting>)
      ensures plannable <==> Plannable(settings, revision, o)
      ensures planned == Planned(settings, revision, o)
      ensures plannable ==> Retains(planned, settings, revision, o) && planned != settings
    {
      planned := [];
      var unread, i := false, 0;
      while i < |settings|
        invariant 0 <= i <= |settings| && |planned| == i
        invariant forall k :: 0 <= k < i ==> planned[k] == Planned(settings, revision, o)[k]
        invariant unread <==> exists k :: 0 <= k < i && settings[k].name !in o.values
      {
        var field := settings[i];
        var next := field;
        match revision {
          case Explicit(requested) =>
            if field.name in requested { next := Setting(field.name, requested[field.name]); }
          case RuntimeAdoption =>
            if field.name in o.values { next := Setting(field.name, o.values[field.name]); }
        }
        unread := unread || field.name !in o.values;
        planned := planned + [next];
        i := i + 1;
      }
      plannable := planned != settings
                   && match revision
                      case Explicit(requested) => forall name :: name in requested ==> Controls(settings, name)
                      case RuntimeAdoption => !unread;
    }

    /** Every open claim ends with the intent it rested on. */
    method ReleaseNow(now: nat) returns (released: bool)
      requires Valid()
      modifies this
      ensures Valid()
      ensures View() == Release(old(View()), now)
      ensures released <==> old(stance) == Managed
      ensures !released ==> View() == old(View())
      ensures released ==>
                && stance == Observed && active == None && intents == old(intents) && observation == old(observation)
                && |findings| == |old(findings)|
                && forall k :: 0 <= k < |findings| ==>
                     findings[k] == if old(findings)[k].resolution.Some? then old(findings)[k]
                                    else old(findings)[k].(resolution := Some(IntentReleased), updatedAt := now)
    {
      ghost var was := View();
      ReachableIsOk(was);
      StepIsReachable(was, ReleaseOp(now));
      if stance == Managed { LookupIsUnique(intents, |intents| - 1); }
      hide Ok, Reachable;
      if stance != Managed || active.None? || Lookup(intents, active.value).None? { return false; }
      stance, active := Observed, None;
      var i := 0;
      while i < |findings|
        invariant 0 <= i <= |findings| == |old(findings)|
        invariant forall k :: 0 <= k < i ==> findings[k] == ReleaseAll(old(findings), now)[k]
        invariant forall k :: i <= k < |findings| ==> findings[k] == old(findings)[k]
        invariant stance == Observed && active == None && intents == old(intents)
                  && observation == old(observation) && history == old(history)
      {
        if findings[i].resolution.None? {
          findings := findings[i := findings[i].(resolution := Some(IntentReleased), updatedAt := now)];
        }
        i := i + 1;
      }
      released := true;
    }

    /** A sweep's reading, and the claims it justifies, land together. */
    method SweepNow(o: Observation, observeOnly: bool, now: nat)
      requires Valid()
      modifies this
      ensures Valid()
      ensures View() == Sweep(old(View()), o, observeOnly, now)
      ensures intents == old(intents) && active == old(active) && observation == Some(o)
      ensures old(stance) == Managed ==>
                && stance == Managed && intents != []
                && Reviewed(old(findings), findings, intents[|intents| - 1], Some(o), now)
      ensures old(stance) != Managed ==>
                stance == (if observeOnly then ObserveOnly else Observed) && findings == old(findings)
    {
      ghost var was := View();
      ReachableIsOk(was);
      StepIsReachable(was, SweepOp(o, observeOnly, now));
      SweepReviews(was, o, observeOnly, now);
      hide Ok, Reachable, Reviewed, Evaluate;
      observation := Some(o);
      if stance != Managed { stance := if observeOnly then ObserveOnly else Observed; }
      if stance != Managed || active.None? { return; }
      var found := Lookup(intents, active.value);
      if found.Some? { EvaluateIntent(found.value, {}, now); }
    }
  }
}
