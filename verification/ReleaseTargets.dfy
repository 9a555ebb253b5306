/** The release declaration's schema (onejudge-repo's `schema`): the checks of one field, and the single
    pass over maps that decides a whole document. */
module ReleaseTargets {
  import opened Wrappers
  import opened Text

  const MAX_PROSE: nat := 400
  const MAX_IDENTIFIER: nat := 128
  const MAX_TARGET_NAME: nat := 64

  datatype Target = Target(id: string, name: string, what: string, publishedBy: string, manifest: Option<string>,
                           covers: seq<string>)

  datatype Retired = Retired(id: string, why: string)

  datatype Declaration = Declaration(probe: Option<string>, targets: seq<Target>, retired: seq<Retired>)

  // ---------------------------------------------------------------- one field

  predicate InRegistry(c: char) { IsLower(c) || IsDigit(c) || c == '-' }

  predicate InName(c: char) { IsAlphanumeric(c) || c in {'-', '_', '.', '@', '/'} }

  predicate InTargetName(c: char) { IsAlphanumeric(c) || c in {'-', '_', '.'} }

  predicate All(s: string, ok: char -> bool) {
    forall i :: 0 <= i < |s| ==> ok(s[i])
  }

  /** `split_once`, as where the first `c` is. */
  function IndexOf(s: string, c: char): (at: Option<nat>)
    ensures match at
            case Some(k) => k < |s| && s[k] == c && forall i :: 0 <= i < k ==> s[i] != c
            case None => forall i :: 0 <= i < |s| ==> s[i] != c
  {
    if s == "" then None
    else if s[0] == c then Some(0)
    else match IndexOf(s[1..], c) case None => None case Some(k) => Some(k + 1)
  }

  predicate RegistryName(registry: string) { registry != "" && All(registry, InRegistry) }

  predicate ServedName(name: string) { name != "" && IsAlphanumeric(name[0]) && All(name, InName) }

  /** `registry_id` */
  predicate RegistryId(value: string) {
    && |value| <= MAX_IDENTIFIER
    && var colon := IndexOf(value, ':');
       colon.Some? && RegistryName(value[..colon.value]) && ServedName(value[colon.value + 1..])
  }

  /** An accepted identifier is a registry, one colon, and a name that registry serves. */
  lemma RegistryIdIs(value: string)
    ensures RegistryId(value) <==>
              && |value| <= MAX_IDENTIFIER
              && exists colon :: 0 <= colon < |value| && SplitsAt(value, colon)
    ensures RegistryId(value) ==>
              forall i, j :: 0 <= i < |value| && 0 <= j < |value| && value[i] == value[j] == ':' ==> i == j
  {
    if RegistryId(value) {
      var colon := IndexOf(value, ':').value;
      assert SplitsAt(value, colon);
      forall i | colon < i < |value| ensures value[i] != ':' { assert value[colon + 1..][i - colon - 1] == value[i]; }
    }
    if colon :| 0 <= colon < |value| && SplitsAt(value, colon) {
      forall i | 0 <= i < colon ensures value[i] != ':' { assert value[..colon][i] == value[i]; }
    }
  }

  predicate SplitsAt(value: string, colon: nat) {
    colon < |value| && value[colon] == ':' && RegistryName(value[..colon]) && ServedName(value[colon + 1..])
  }

  /** `target_name` */
  predicate TargetName(value: string) {
    value != "" && |value| <= MAX_TARGET_NAME && IsAlphanumeric(value[0]) && All(value, InTargetName)
  }

  predicate IsControl(c: char) { c < ' ' || c == 127 as char }

  /** `prose` */
  predicate Prose(value: string) {
    Trimmed(value) != "" && |value| <= MAX_PROSE && forall i :: 0 <= i < |value| ==> !IsControl(value[i])
  }

  predicate IsSeparator(c: char) { c == '/' || c == '\\' }

  /** `split(SEPARATORS)`, past the component being read. */
  function Components(component: string, value: string): seq<string>
    decreases |value|
  {
    if value == "" then [component]
    else if IsSeparator(value[0]) then [component] + Components("", value[1..])
    else Components(component + [value[0]], value[1..])
  }

  /** `repository_path` */
  predicate RepositoryPath(value: string) {
    && value != ""
    && !IsSeparator(value[0])
    && !(|value| > 1 && value[1] == ':' && (IsLower(value[0]) || IsUpper(value[0])))
    && ".." !in Components("", value)
  }

  /** `..` stands alone at `i`, between separators or the ends. */
  predicate ClimbsAt(value: string, i: nat) {
    && i + 2 <= |value| && value[i] == value[i + 1] == '.'
    && (i == 0 || IsSeparator(value[i - 1]))
    && (i + 2 == |value| || IsSeparator(value[i + 2]))
  }

  /** A path is accepted exactly when it is spelled relative and climbs nowhere. */
  lemma RepositoryPathIs(value: string)
    ensures RepositoryPath(value) <==>
              && value != "" && !IsSeparator(value[0])
              && !(|value| > 1 && value[1] == ':' && (IsLower(value[0]) || IsUpper(value[0])))
              && forall i: nat :: !ClimbsAt(value, i)
  {
    assert "" + value == value;
    ClimbsAreComponents("", value);
  }

  lemma {:induction false} ClimbsAreComponents(component: string, value: string)
    requires forall i :: 0 <= i < |component| ==> !IsSeparator(component[i])
    ensures ".." in Components(component, value) <==> exists i: nat :: ClimbsAt(component + value, i)
    decreases |value|
  {
    var all := component + value;
    if value == "" {
      assert all == component;
      if component == ".." { assert ClimbsAt(all, 0); }
      if i: nat :| ClimbsAt(all, i) { assert i == 0 && component == ".."; }
    } else if IsSeparator(value[0]) {
      ClimbsAreComponents("", value[1..]);
      assert "" + value[1..] == value[1..];
      Past(component, value);
    } else {
      ClimbsAreComponents(component + [value[0]], value[1..]);
      assert component + [value[0]] + value[1..] == all;
    }
  }

  /** A climb is in the component before the first separator, or past it. */
  lemma Past(component: string, value: string)
    requires value != "" && IsSeparator(value[0])
    requires forall i :: 0 <= i < |component| ==> !IsSeparator(component[i])
    ensures (exists i: nat :: ClimbsAt(component + value, i))
            <==> component == ".." || exists i: nat :: ClimbsAt(value[1..], i)
  {
    var all, n := component + value, |component| + 1;
    assert all[|component|] == value[0];
    forall i: nat | ClimbsAt(value[1..], i) ensures ClimbsAt(all, n + i) {
      assert all[n..] == value[1..];
    }
    if component == ".." { assert ClimbsAt(all, 0); }
    forall i: nat | ClimbsAt(all, i) ensures component == ".." || exists j: nat :: ClimbsAt(value[1..], j) {
      if i < n {
        assert i == 0 && all[2] == value[0];
      } else {
        assert all[n..] == value[1..];
        assert ClimbsAt(value[1..], i - n);
      }
    }
  }

  // ---------------------------------------------------------------- the whole document

  datatype Place = TheProbe | TheDocument | TargetAt(index: nat) | RetiredAt(index: nat)

  datatype Problem =
    | BadPath | NoTargets | BadId | BadName | BadProse
    | NameTaken(earlier: nat)
    | IdTaken(earlier: nat)
    | CoversItself
    | CoveredTwice(earlier: nat)
    | CoversTarget(other: nat)
    | RetiresTarget(other: nat)
    | RetiredTwice(earlier: nat)

  datatype Refusal = Refusal(place: Place, problem: Problem)

  predicate OptionalPath(path: Option<string>) { path.Some? ==> RepositoryPath(path.value) }

  /** Every field of a target, each on its own. */
  predicate FieldsFit(t: Target) {
    && RegistryId(t.id) && TargetName(t.name) && Prose(t.what) && Prose(t.publishedBy) && OptionalPath(t.manifest)
  }

  predicate AllIds(ids: seq<string>) {
    forall i :: 0 <= i < |ids| ==> RegistryId(ids[i])
  }

  predicate Distinct(s: seq<string>) {
    forall i, j :: 0 <= i < j < |s| ==> s[i] != s[j]
  }

  function Names(targets: seq<Target>): (names: seq<string>)
    ensures |names| == |targets|
  {
    seq(|targets|, i requires 0 <= i < |targets| => targets[i].name)
  }

  function Ids(targets: seq<Target>): (ids: seq<string>)
    ensures |ids| == |targets|
  {
    seq(|targets|, i requires 0 <= i < |targets| => targets[i].id)
  }

  function Covered(targets: seq<Target>): seq<string> {
    if targets == [] then [] else Covered(targets[..|targets| - 1]) + targets[|targets| - 1].covers
  }

  function RetiredIds(retired: seq<Retired>): (ids: seq<string>)
    ensures |ids| == |retired|
  {
    seq(|retired|, i requires 0 <= i < |retired| => retired[i].id)
  }

  /** Names, identifiers and covered identifiers are each given once, and no identifier is covered. */
  ghost predicate TargetsFit(targets: seq<Target>) {
    && (forall i :: 0 <= i < |targets| ==> FieldsFit(targets[i]) && AllIds(targets[i].covers))
    && Distinct(Names(targets)) && Distinct(Ids(targets)) && Distinct(Covered(targets))
    && forall id :: id in Covered(targets) ==> id !in Ids(targets)
  }

  /** Everything on record was published once, and is not now. */
  ghost predicate RetiredFit(targets: seq<Target>, retired: seq<Retired>) {
    && (forall i :: 0 <= i < |retired| ==> RegistryId(retired[i].id) && Prose(retired[i].why))
    && Distinct(RetiredIds(retired))
    && forall id :: id in RetiredIds(retired) ==> id !in Ids(targets)
  }

  ghost predicate Acceptable(d: Declaration) {
    && OptionalPath(d.probe) && d.targets != []
    && TargetsFit(d.targets) && RetiredFit(d.targets, d.retired)
  }

  lemma DistinctSnoc(s: seq<string>, x: string)
    ensures Distinct(s + [x]) <==> Distinct(s) && x !in s
  {
    var all := s + [x];
    if Distinct(all) {
      forall i | 0 <= i < |s| ensures s[i] != x { assert all[i] == s[i] && all[|s|] == x; }
      forall i, j | 0 <= i < j < |s| ensures s[i] != s[j] { assert all[i] == s[i] && all[j] == s[j]; }
    }
  }

  lemma {:induction false} DistinctPrefix(a: seq<string>, b: seq<string>)
    requires Distinct(a + b)
    ensures Distinct(a)
  {
    forall i, j | 0 <= i < j < |a| ensures a[i] != a[j] { assert (a + b)[i] == a[i] && (a + b)[j] == a[j]; }
  }

  /** `m` maps each of `keys` to where it was seen, below `bound`. */
  ghost predicate Maps(m: map<string, nat>, keys: seq<string>, bound: nat) {
    && (forall k :: k in m <==> k in keys)
    && (forall k :: k in m ==> m[k] < bound)
  }

  /** `m` is where each of `keys` is. */
  ghost predicate Places(m: map<string, nat>, keys: seq<string>) {
    && (forall k :: k in m <==> k in keys)
    && (forall k :: k in m ==> m[k] < |keys| && keys[m[k]] == k)
  }

  lemma PlacesSnoc(m: map<string, nat>, keys: seq<string>, key: string)
    requires Places(m, keys) && key !in m
    ensures Places(m[key := |keys|], keys + [key])
  {
    assert (keys + [key])[|keys|] == key;
  }

  /** What a refusal says of the entry it names is so. */
  ghost predicate Warranted(d: Declaration, r: Refusal) {
    match r.place
    case TheProbe => !OptionalPath(d.probe)
    case TheDocument => d.targets == []
    case TargetAt(i) => i < |d.targets| && TargetWarrants(d.targets, i, r.problem)
    case RetiredAt(i) =>
      && i < |d.retired|
      && match r.problem
         case BadId => !RegistryId(d.retired[i].id)
         case BadProse => !Prose(d.retired[i].why)
         case RetiresTarget(other) => other < |d.targets| && d.targets[other].id == d.retired[i].id
         case RetiredTwice(earlier) => earlier < i && d.retired[earlier].id == d.retired[i].id
         case _ => false
  }

  ghost predicate TargetWarrants(targets: seq<Target>, i: nat, problem: Problem)
    requires i < |targets|
  {
    var t := targets[i];
    match problem
    case BadId => !RegistryId(t.id) || !AllIds(t.covers)
    case BadName => !TargetName(t.name)
    case BadProse => !Prose(t.what) || !Prose(t.publishedBy)
    case BadPath => !OptionalPath(t.manifest)
    case NameTaken(earlier) => earlier < i && targets[earlier].name == t.name
    case IdTaken(earlier) => earlier < i && targets[earlier].id == t.id
    case CoversItself => t.id in t.covers
    case CoveredTwice(earlier) =>
      earlier <= i && !Distinct(Covered(targets[..i + 1])) && CoversAgain(targets[..i], t, earlier)
    case CoversTarget(other) => other < |targets| && targets[other].id in t.covers
    case _ => false
  }

  /** `t` covers what the target at `earlier`, an earlier one or itself, has covered before. */
  ghost predicate CoversAgain(before: seq<Target>, t: Target, earlier: nat) {
    exists j :: 0 <= j < |t.covers|
                && if earlier < |before| then t.covers[j] in before[earlier].covers
                   else earlier == |before| && t.covers[j] in t.covers[..j]
  }

  /** `m` gives for what is covered a target that covers it. */
  ghost predicate CoveredAt(m: map<string, nat>, targets: seq<Target>) {
    forall k :: k in m ==> m[k] < |targets| && k in targets[m[k]].covers
  }

  /** One target's covered identifiers, in order; `before` is everything covered by the earlier ones. */
  method ReadCovers(t: Target, index: nat, covered: map<string, nat>, ghost before: seq<string>,
                    ghost targets: seq<Target>)
    returns (refused: Option<Problem>, covered': map<string, nat>)
    requires Maps(covered, before, index) && Distinct(before) && |targets| == index && CoveredAt(covered, targets)
    ensures refused.None? <==> AllIds(t.covers) && t.id !in t.covers && Distinct(before + t.covers)
    ensures refused.None? ==> Maps(covered', before + t.covers, index + 1) && CoveredAt(covered', targets + [t])
    ensures refused.Some? ==>
              match refused.value
              case BadId => !AllIds(t.covers)
              case CoversItself => t.id in t.covers
              case CoveredTwice(earlier) =>
                earlier <= index && !Distinct(before + t.covers) && CoversAgain(targets, t, earlier)
              case _ => false
  {
    covered' := covered;
    assert before + t.covers[..0] == before;
    for i := 0 to |t.covers|
      invariant AllIds(t.covers[..i]) && t.id !in t.covers[..i]
      invariant Distinct(before + t.covers[..i]) && Maps(covered', before + t.covers[..i], index + 1)
      invariant forall k :: k in covered' ==>
                  if covered'[k] < index then k in targets[covered'[k]].covers
                  else covered'[k] == index && k in t.covers[..i]
    {
      var id := t.covers[i];
      assert t.covers[..i + 1] == t.covers[..i] + [id];
      assert before + t.covers[..i + 1] == before + t.covers[..i] + [id];
      assert t.covers == t.covers[..i + 1] + t.covers[i + 1..];
      if !RegistryId(id) {
        return Some(BadId), covered';
      }
      if id == t.id {
        return Some(CoversItself), covered';
      }
      DistinctSnoc(before + t.covers[..i], id);
      if id in covered' {
        NotDistinct(before, t.covers, i);
        return Some(CoveredTwice(covered'[id])), covered';
      }
      covered' := covered'[id := index];
    }
    assert t.covers[..|t.covers|] == t.covers;
    refused := None;
  }

  lemma NotDistinct(before: seq<string>, covers: seq<string>, i: nat)
    requires i < |covers| && !Distinct(before + covers[..i + 1])
    ensures !Distinct(before + covers)
  {
    if Distinct(before + covers) {
      assert before + covers == before + covers[..i + 1] + covers[i + 1..];
      DistinctPrefix(before + covers[..i + 1], covers[i + 1..]);
    }
  }

  /** What is wrong with one target alone, or with its name and identifier beside the earlier ones. */
  function TargetProblem(t: Target, names: map<string, nat>, ids: map<string, nat>): Option<Problem> {
    if !RegistryId(t.id) then Some(BadId)
    else if !TargetName(t.name) then Some(BadName)
    else if !Prose(t.what) || !Prose(t.publishedBy) then Some(BadProse)
    else if !OptionalPath(t.manifest) then Some(BadPath)
    else if t.name in names then Some(NameTaken(names[t.name]))
    else if t.id in ids then Some(IdTaken(ids[t.id]))
    else None
  }

  /** Whether the targets fit, but for an identifier one of them covers and another declares. */
  ghost predicate PassFits(targets: seq<Target>) {
    && (forall i :: 0 <= i < |targets| ==>
          FieldsFit(targets[i]) && AllIds(targets[i].covers) && targets[i].id !in targets[i].covers)
    && Distinct(Names(targets)) && Distinct(Ids(targets)) && Distinct(Covered(targets))
  }

  lemma PassSnoc(targets: seq<Target>, t: Target)
    ensures Names(targets + [t]) == Names(targets) + [t.name]
    ensures Ids(targets + [t]) == Ids(targets) + [t.id]
    ensures Covered(targets + [t]) == Covered(targets) + t.covers
    ensures PassFits(targets + [t]) <==>
              && PassFits(targets) && FieldsFit(t) && AllIds(t.covers) && t.id !in t.covers
              && t.name !in Names(targets) && t.id !in Ids(targets) && Distinct(Covered(targets) + t.covers)
  {
    hide FieldsFit, AllIds, Distinct;
    var all := targets + [t];
    assert all[..|targets|] == targets;
    assert Names(all) == Names(targets) + [t.name] && Ids(all) == Ids(targets) + [t.id];
    DistinctSnoc(Names(targets), t.name);
    DistinctSnoc(Ids(targets), t.id);
    if Distinct(Covered(targets) + t.covers) { DistinctPrefix(Covered(targets), t.covers); }
    assert all[|targets|] == t;
    forall i | 0 <= i < |targets| ensures all[i] == targets[i] {}
  }

  lemma {:induction false} PassPrefix(targets: seq<Target>, n: nat)
    requires n <= |targets| && PassFits(targets)
    ensures PassFits(targets[..n])
    decreases |targets|
  {
    if n < |targets| {
      var most := targets[..|targets| - 1];
      assert targets == most + [targets[|targets| - 1]];
      PassSnoc(most, targets[|targets| - 1]);
      PassPrefix(most, n);
      assert most[..n] == targets[..n];
    } else {
      assert targets[..n] == targets;
    }
  }

  /** The pass over the targets: `ids` is where each identifier is declared. */
  method ReadTargets(targets: seq<Target>) returns (refused: Option<Refusal>, ids: map<string, nat>)
    ensures refused.None? <==> PassFits(targets)
    ensures refused.None? ==> Places(ids, Ids(targets))
    ensures refused.Some? ==> Points(targets, refused.value)
  {
    hide PassFits, FieldsFit, AllIds, Distinct, TargetWarrants, Places, Maps, Names, Ids, CoveredAt, CoversAgain;
    var names: map<string, nat> := map[];
    var covered: map<string, nat> := map[];
    ids := map[];
    NothingRead();
    assert targets[..0] == [];
    for index := 0 to |targets|
      invariant PassFits(targets[..index])
      invariant Places(names, Names(targets[..index])) && Places(ids, Ids(targets[..index]))
      invariant Maps(covered, Covered(targets[..index]), index) && CoveredAt(covered, targets[..index])
    {
      var t := targets[index];
      assert targets[..index + 1] == targets[..index] + [t];
      PassSnoc(targets[..index], t);
      PassDistinct(targets[..index]);
      var problem := TargetProblem(t, names, ids);
      TargetProblemIs(targets, index, names, ids);
      if problem.Some? {
        Refuses(targets, index + 1);
        return Some(Refusal(TargetAt(index), problem.value)), ids;
      }
      var refusal, covered' := ReadCovers(t, index, covered, Covered(targets[..index]), targets[..index]);
      if refusal.Some? {
        Refuses(targets, index + 1);
        CoversWarrant(targets, index, refusal.value);
        return Some(Refusal(TargetAt(index), refusal.value)), ids;
      }
      PlacesSnoc(names, Names(targets[..index]), t.name);
      PlacesSnoc(ids, Ids(targets[..index]), t.id);
      names, ids, covered := names[t.name := index], ids[t.id := index], covered';
    }
    assert targets[..|targets|] == targets;
    refused := None;
  }

  lemma NothingRead()
    ensures PassFits([]) && Places(map[], Names([])) && Places(map[], Ids([])) && Maps(map[], Covered([]), 0)
    ensures CoveredAt(map[], [])
  {
  }

  lemma PassDistinct(targets: seq<Target>)
    requires PassFits(targets)
    ensures Distinct(Covered(targets))
  {
  }

  /** A refusal of one target. */
  ghost predicate Points(targets: seq<Target>, r: Refusal) {
    r.place.TargetAt? && r.place.index < |targets| && TargetWarrants(targets, r.place.index, r.problem)
  }

  lemma TargetProblemIs(targets: seq<Target>, i: nat, names: map<string, nat>, ids: map<string, nat>)
    requires i < |targets| && Places(names, Names(targets[..i])) && Places(ids, Ids(targets[..i]))
    ensures var t := targets[i];
            && (TargetProblem(t, names, ids).None? <==>
                  FieldsFit(t) && t.name !in Names(targets[..i]) && t.id !in Ids(targets[..i]))
            && (TargetProblem(t, names, ids).None? ==> t.name !in names && t.id !in ids)
            && (TargetProblem(t, names, ids).Some? ==> TargetWarrants(targets, i, TargetProblem(t, names, ids).value))
  {
    hide RegistryId, TargetName, Prose, OptionalPath, AllIds, Distinct, Covered;
  }

  lemma CoversWarrant(targets: seq<Target>, i: nat, problem: Problem)
    requires i < |targets|
    requires match problem
             case BadId => !AllIds(targets[i].covers)
             case CoversItself => targets[i].id in targets[i].covers
             case CoveredTwice(earlier) =>
               && earlier <= i && !Distinct(Covered(targets[..i]) + targets[i].covers)
               && CoversAgain(targets[..i], targets[i], earlier)
             case _ => false
    ensures TargetWarrants(targets, i, problem)
  {
    hide AllIds, Distinct, CoversAgain;
    assert targets[..i + 1][..i] == targets[..i];
  }

  lemma Refuses(targets: seq<Target>, n: nat)
    requires n <= |targets| && !PassFits(targets[..n])
    ensures !PassFits(targets)
  {
    hide PassFits;
    if PassFits(targets) { PassPrefix(targets, n); }
  }

  /** Covering what another target declares is asked once every target has been read. */
  method CrossCheck(targets: seq<Target>, ids: map<string, nat>) returns (refused: Option<Refusal>)
    requires Places(ids, Ids(targets))
    ensures refused.Some? ==> Points(targets, refused.value)
    ensures refused.None? <==> forall id :: id in Covered(targets) ==> id !in Ids(targets)
  {
    assert targets[..0] == [];
    for index := 0 to |targets|
      invariant forall id :: id in Covered(targets[..index]) ==> id !in Ids(targets)
    {
      var t := targets[index];
      assert targets[..index + 1][..index] == targets[..index];
      for i := 0 to |t.covers|
        invariant forall j :: 0 <= j < i ==> t.covers[j] !in Ids(targets)
      {
        if t.covers[i] in ids {
          CoveredBy(targets, index, i);
          return Some(Refusal(TargetAt(index), CoversTarget(ids[t.covers[i]])));
        }
      }
    }
    assert targets[..|targets|] == targets;
    refused := None;
  }

  lemma {:induction false} CoveredBy(targets: seq<Target>, index: nat, i: nat)
    requires index < |targets| && i < |targets[index].covers|
    ensures targets[index].covers[i] in Covered(targets)
    decreases |targets|
  {
    var n := |targets| - 1;
    if index < n { CoveredBy(targets[..n], index, i); }
  }

  /** The pass over what is no longer published. */
  method ReadRetired(d: Declaration, ids: map<string, nat>) returns (refused: Option<Refusal>)
    requires Places(ids, Ids(d.targets))
    ensures refused.None? <==> RetiredFit(d.targets, d.retired)
    ensures refused.Some? ==> Warranted(d, refused.value)
  {
    hide RegistryId, Prose;
    var targets, retired := d.targets, d.retired;
    var seen: map<string, nat> := map[];
    for index := 0 to |retired|
      invariant RetiredFit(targets, retired[..index]) && Places(seen, RetiredIds(retired[..index]))
    {
      var entry := retired[index];
      RetiredSnoc(targets, retired, index);
      if !RegistryId(entry.id) {
        return Some(Refusal(RetiredAt(index), BadId));
      }
      if !Prose(entry.why) {
        return Some(Refusal(RetiredAt(index), BadProse));
      }
      if entry.id in ids {
        return Some(Refusal(RetiredAt(index), RetiresTarget(ids[entry.id])));
      }
      if entry.id in seen {
        return Some(Refusal(RetiredAt(index), RetiredTwice(seen[entry.id])));
      }
      PlacesSnoc(seen, RetiredIds(retired[..index]), entry.id);
      seen := seen[entry.id := index];
    }
    assert retired[..|retired|] == retired;
    refused := None;
  }

  lemma RetiredSnoc(targets: seq<Target>, retired: seq<Retired>, n: nat)
    requires n < |retired|
    ensures RetiredIds(retired[..n + 1]) == RetiredIds(retired[..n]) + [retired[n].id]
    ensures RetiredFit(targets, retired[..n + 1]) <==>
              && RetiredFit(targets, retired[..n]) && RegistryId(retired[n].id) && Prose(retired[n].why)
              && retired[n].id !in Ids(targets) && retired[n].id !in RetiredIds(retired[..n])
    ensures RetiredFit(targets, retired) ==> RetiredFit(targets, retired[..n + 1])
  {
    hide RegistryId, Prose;
    var more := retired[..n + 1];
    assert RetiredIds(more) == RetiredIds(retired[..n]) + [retired[n].id];
    DistinctSnoc(RetiredIds(retired[..n]), retired[n].id);
    forall i | 0 <= i < n ensures more[i] == retired[..n][i] {}
    if RetiredFit(targets, retired) {
      assert RetiredIds(retired) == RetiredIds(more) + RetiredIds(retired)[n + 1..];
      DistinctPrefix(RetiredIds(more), RetiredIds(retired)[n + 1..]);
    }
  }

  /** A pass that fits, and nothing covered that is declared: everything the targets must be. */
  lemma PassAndCross(targets: seq<Target>)
    ensures TargetsFit(targets) <==>
              PassFits(targets) && forall id :: id in Covered(targets) ==> id !in Ids(targets)
  {
    hide FieldsFit, AllIds, Distinct;
    if TargetsFit(targets) {
      forall i | 0 <= i < |targets| ensures targets[i].id !in targets[i].covers {
        assert Ids(targets)[i] == targets[i].id;
        if targets[i].id in targets[i].covers {
          var j :| 0 <= j < |targets[i].covers| && targets[i].covers[j] == targets[i].id;
          CoveredBy(targets, i, j);
        }
      }
    }
  }

  /** `validate`: one pass over maps accepts exactly the documents that meet every condition, field by
      field and pair by pair. */
  method Validate(d: Declaration) returns (refused: Option<Refusal>)
    ensures refused.None? <==> Acceptable(d)
    ensures refused.Some? ==> Warranted(d, refused.value)
  {
    hide OptionalPath, RetiredFit, TargetsFit, PassFits, Places, TargetWarrants;
    if !OptionalPath(d.probe) {
      return Some(Refusal(TheProbe, BadPath));
    }
    if d.targets == [] {
      return Some(Refusal(TheDocument, NoTargets));
    }
    PassAndCross(d.targets);
    var pass, ids := ReadTargets(d.targets);
    if pass.Some? {
      return pass;
    }
    var cross := CrossCheck(d.targets, ids);
    if cross.Some? {
      return cross;
    }
    refused := ReadRetired(d, ids);
  }
}
