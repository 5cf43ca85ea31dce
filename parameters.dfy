/**
 * Where `GetClassBridgeParameters` puts each `[Parameter]` of a type: a parameter naming an
 * owner goes to the first class bridge of that name; a parameter without an owner goes to the
 * only class bridge when there is exactly one and no field bridge claims it; every other
 * parameter is logged and dropped. Only a parameter name already present on its bridge makes
 * the step throw.
 */
module ParameterProperties {
  import opened Wrappers
  import opened TypeModel
  import opened MappingCompiler

  /** The index of the class bridge that receives `p`, if any. */
  function Target(fieldBridgeExists: bool, bridges: seq<ClassBridgeDefinition>, p: ParameterDefinition): (r: Option<nat>)
    ensures r.Some? ==> r.value < |bridges|
    ensures p.owner != "" ==> r == FirstOwner(bridges, p.owner)
    ensures p.owner == "" ==> (r.Some? <==> !fieldBridgeExists && |bridges| == 1)
  {
    if p.owner == "" then (if !fieldBridgeExists && |bridges| == 1 then Some(0) else None)
    else FirstOwner(bridges, p.owner)
  }

  /** The log line written for `p`, if `p` is dropped without being claimed by a field bridge. */
  function Logged(t: TypeId, fieldBridgeExists: bool, bridges: seq<ClassBridgeDefinition>, p: ParameterDefinition)
    : (r: seq<Diagnostic>)
    ensures |r| <= 1
    ensures |r| == 1 <==> Target(fieldBridgeExists, bridges, p).None? && !(p.owner == "" && fieldBridgeExists)
  {
    if p.owner == "" then (if !fieldBridgeExists && |bridges| != 1 then [ParameterNeedsOwner(t, p)] else [])
    else if FirstOwner(bridges, p.owner).None? then [NoMatchingOwner(t, p)] else []
  }

  /** The log lines for `ps`, in order. */
  function Dropped(t: TypeId, fieldBridgeExists: bool, bridges: seq<ClassBridgeDefinition>, ps: seq<ParameterDefinition>)
    : seq<Diagnostic>
    decreases |ps|
  {
    if ps == [] then [] else Logged(t, fieldBridgeExists, bridges, ps[0]) + Dropped(t, fieldBridgeExists, bridges, ps[1..])
  }

  /** Placing one parameter on its target bridge. */
  function Placed(fieldBridgeExists: bool, bridges: seq<ClassBridgeDefinition>, p: ParameterDefinition)
    : Result<seq<ClassBridgeDefinition>, BuildError>
  {
    match Target(fieldBridgeExists, bridges, p)
    case None => Ok(bridges)
    case Some(j) => AddParameter(bridges, j, p)
  }

  /** Two parameters `ps[k]` and `ps[k2]`, `k2 < k`, going to the same bridge under the same name, or `ps[k]` meeting a name already there. */
  ghost predicate Clashes(fieldBridgeExists: bool, bridges: seq<ClassBridgeDefinition>, ps: seq<ParameterDefinition>, i: nat) {
    exists k :: i <= k < |ps| && Clash(fieldBridgeExists, bridges, ps, i, k)
  }

  ghost predicate Clash(fieldBridgeExists: bool, bridges: seq<ClassBridgeDefinition>, ps: seq<ParameterDefinition>, i: nat, k: nat)
    requires k < |ps|
  {
    var target := Target(fieldBridgeExists, bridges, ps[k]);
    && target.Some?
    && (|| ps[k].name in bridges[target.value].parameters
        || exists k2 :: i <= k2 < k && Target(fieldBridgeExists, bridges, ps[k2]) == target && ps[k2].name == ps[k].name)
  }

  // ---------------------------------------------------------------------------
  // Helpers

  /** Bridges with the same names, in the same order. */
  ghost predicate SameNames(a: seq<ClassBridgeDefinition>, b: seq<ClassBridgeDefinition>) {
    |a| == |b| && forall j :: 0 <= j < |a| ==> a[j].name == b[j].name
  }

  lemma {:induction false} FirstOwnerByName(a: seq<ClassBridgeDefinition>, b: seq<ClassBridgeDefinition>, owner: string)
    requires SameNames(a, b)
    ensures FirstOwner(a, owner) == FirstOwner(b, owner)
    decreases |a|
  {
    if a != [] && a[0].name != owner {
      FirstOwnerByName(a[1..], b[1..], owner);
    }
  }

  /** Placing a parameter keeps the bridges' names, so every later target and log line is unchanged. */
  lemma PlacedKeepsTargets(
    t: TypeId, fieldBridgeExists: bool, bridges: seq<ClassBridgeDefinition>, p: ParameterDefinition, q: ParameterDefinition)
    requires Placed(fieldBridgeExists, bridges, p).Ok?
    ensures var b := Placed(fieldBridgeExists, bridges, p).value;
      && Target(fieldBridgeExists, b, q) == Target(fieldBridgeExists, bridges, q)
      && Logged(t, fieldBridgeExists, b, q) == Logged(t, fieldBridgeExists, bridges, q)
  {
    FirstOwnerByName(Placed(fieldBridgeExists, bridges, p).value, bridges, q.owner);
  }

  lemma PlacedKeepsDropped(
    t: TypeId, fieldBridgeExists: bool, bridges: seq<ClassBridgeDefinition>, p: ParameterDefinition, ps: seq<ParameterDefinition>)
    requires Placed(fieldBridgeExists, bridges, p).Ok?
    ensures Dropped(t, fieldBridgeExists, Placed(fieldBridgeExists, bridges, p).value, ps) == Dropped(t, fieldBridgeExists, bridges, ps)
    decreases |ps|
  {
    if ps != [] {
      PlacedKeepsTargets(t, fieldBridgeExists, bridges, p, ps[0]);
      PlacedKeepsDropped(t, fieldBridgeExists, bridges, p, ps[1..]);
    }
  }

  /** One step of the parameter loop: place `ps[i]`, write its log line, go on. */
  lemma AssignStep(
    t: TypeId, fieldBridgeExists: bool, ps: seq<ParameterDefinition>, i: nat,
    bridges: seq<ClassBridgeDefinition>, log: seq<Diagnostic>)
    requires i < |ps|
    ensures AssignParameters(t, fieldBridgeExists, ps, i, bridges, log) ==
      match Placed(fieldBridgeExists, bridges, ps[i])
      case Err(e) => Err(e)
      case Ok(b) => AssignParameters(t, fieldBridgeExists, ps, i + 1, b, log + Logged(t, fieldBridgeExists, bridges, ps[i]))
  {
    assert log + [] == log;
  }

  // ---------------------------------------------------------------------------
  // The properties

  /** What placing one parameter does to the bridges. */
  lemma PlacedEffect(fieldBridgeExists: bool, bridges: seq<ClassBridgeDefinition>, p: ParameterDefinition)
    requires Placed(fieldBridgeExists, bridges, p).Ok?
    ensures var b := Placed(fieldBridgeExists, bridges, p).value;
      && |b| == |bridges|
      && (Target(fieldBridgeExists, bridges, p).None? ==> b == bridges)
      && (Target(fieldBridgeExists, bridges, p).Some? ==>
            var j := Target(fieldBridgeExists, bridges, p).value;
            && p.name !in bridges[j].parameters
            && b == bridges[j := bridges[j].(parameters := bridges[j].parameters[p.name := p.value])])
  {
  }

  /** On success, every entry the bridges already had is kept with its value. */
  lemma {:induction false} AssignmentKeepsEntries(
    t: TypeId, fieldBridgeExists: bool, ps: seq<ParameterDefinition>, i: nat,
    bridges: seq<ClassBridgeDefinition>, log: seq<Diagnostic>)
    requires i <= |ps|
    ensures var r := AssignParameters(t, fieldBridgeExists, ps, i, bridges, log);
      r.Ok? ==>
        && |r.value.bridges| == |bridges|
        && forall j, key :: 0 <= j < |bridges| && key in bridges[j].parameters ==>
             key in r.value.bridges[j].parameters && r.value.bridges[j].parameters[key] == bridges[j].parameters[key]
    decreases |ps| - i
  {
    if i < |ps| {
      AssignStep(t, fieldBridgeExists, ps, i, bridges, log);
      var placed := Placed(fieldBridgeExists, bridges, ps[i]);
      if placed.Ok? {
        PlacedEffect(fieldBridgeExists, bridges, ps[i]);
        AssignmentKeepsEntries(t, fieldBridgeExists, ps, i + 1, placed.value,
                               log + Logged(t, fieldBridgeExists, bridges, ps[i]));
      }
    }
  }

  /** On success, every parameter from `i` on that has a target bridge is on it with its value. */
  lemma {:induction false} AssignmentStoresTargeted(
    t: TypeId, fieldBridgeExists: bool, ps: seq<ParameterDefinition>, i: nat,
    bridges: seq<ClassBridgeDefinition>, log: seq<Diagnostic>)
    requires i <= |ps|
    ensures var r := AssignParameters(t, fieldBridgeExists, ps, i, bridges, log);
      r.Ok? ==>
        && |r.value.bridges| == |bridges|
        && forall k :: i <= k < |ps| && Target(fieldBridgeExists, bridges, ps[k]).Some? ==>
          var j := Target(fieldBridgeExists, bridges, ps[k]).value;
          ps[k].name in r.value.bridges[j].parameters && r.value.bridges[j].parameters[ps[k].name] == ps[k].value
    decreases |ps| - i
  {
    if i < |ps| {
      AssignStep(t, fieldBridgeExists, ps, i, bridges, log);
      var placed := Placed(fieldBridgeExists, bridges, ps[i]);
      if placed.Ok? {
        var b := placed.value;
        var log' := log + Logged(t, fieldBridgeExists, bridges, ps[i]);
        PlacedEffect(fieldBridgeExists, bridges, ps[i]);
        AssignmentStoresTargeted(t, fieldBridgeExists, ps, i + 1, b, log');
        AssignmentKeepsEntries(t, fieldBridgeExists, ps, i + 1, b, log');
        forall k | i < k < |ps| { PlacedKeepsTargets(t, fieldBridgeExists, bridges, ps[i], ps[k]); }
      }
    }
  }

  /** On success, an entry is either one the bridge already had or a parameter from `i` on that targets it. */
  lemma {:induction false} AssignmentAddsOnlyTargeted(
    t: TypeId, fieldBridgeExists: bool, ps: seq<ParameterDefinition>, i: nat,
    bridges: seq<ClassBridgeDefinition>, log: seq<Diagnostic>)
    requires i <= |ps|
    ensures var r := AssignParameters(t, fieldBridgeExists, ps, i, bridges, log);
      r.Ok? ==>
        && |r.value.bridges| == |bridges|
        && forall j, key :: 0 <= j < |bridges| && key in r.value.bridges[j].parameters ==>
          || key in bridges[j].parameters
          || exists k :: i <= k < |ps| && Target(fieldBridgeExists, bridges, ps[k]) == Some(j) && ps[k].name == key
    decreases |ps| - i
  {
    var r := AssignParameters(t, fieldBridgeExists, ps, i, bridges, log);
    if i < |ps| {
      AssignStep(t, fieldBridgeExists, ps, i, bridges, log);
      var placed := Placed(fieldBridgeExists, bridges, ps[i]);
      if placed.Ok? {
        var b := placed.value;
        PlacedEffect(fieldBridgeExists, bridges, ps[i]);
        AssignmentAddsOnlyTargeted(t, fieldBridgeExists, ps, i + 1, b, log + Logged(t, fieldBridgeExists, bridges, ps[i]));
        if r.Ok? {
          forall j, key | 0 <= j < |bridges| && key in r.value.bridges[j].parameters && key !in bridges[j].parameters
            ensures exists k :: i <= k < |ps| && Target(fieldBridgeExists, bridges, ps[k]) == Some(j) && ps[k].name == key
          {
            if key in b[j].parameters {
              assert Target(fieldBridgeExists, bridges, ps[i]) == Some(j) && ps[i].name == key;
            } else {
              var k :| i + 1 <= k < |ps| && Target(fieldBridgeExists, b, ps[k]) == Some(j) && ps[k].name == key;
              PlacedKeepsTargets(t, fieldBridgeExists, bridges, ps[i], ps[k]);
            }
          }
        }
      }
    }
  }

  /** On success, the log gains exactly the lines of the dropped parameters, in order. */
  lemma {:induction false} AssignmentLogsDropped(
    t: TypeId, fieldBridgeExists: bool, ps: seq<ParameterDefinition>, i: nat,
    bridges: seq<ClassBridgeDefinition>, log: seq<Diagnostic>)
    requires i <= |ps|
    ensures var r := AssignParameters(t, fieldBridgeExists, ps, i, bridges, log);
      r.Ok? ==> r.value.log == log + Dropped(t, fieldBridgeExists, bridges, ps[i..])
    decreases |ps| - i
  {
    if i == |ps| {
      assert ps[i..] == [];
    } else {
      AssignStep(t, fieldBridgeExists, ps, i, bridges, log);
      var placed := Placed(fieldBridgeExists, bridges, ps[i]);
      if placed.Ok? {
        AssignmentLogsDropped(t, fieldBridgeExists, ps, i + 1, placed.value, log + Logged(t, fieldBridgeExists, bridges, ps[i]));
        PlacedKeepsDropped(t, fieldBridgeExists, bridges, ps[i], ps[i + 1..]);
        assert ps[i..][0] == ps[i] && ps[i..][1..] == ps[i + 1..];
      }
    }
  }

  /** Once `ps[i]` is placed without a clash, the later parameters clash on the new bridges exactly when they clashed before. */
  lemma ClashesAfterPlacing(
    t: TypeId, fieldBridgeExists: bool, ps: seq<ParameterDefinition>, i: nat, bridges: seq<ClassBridgeDefinition>)
    requires i < |ps| && Placed(fieldBridgeExists, bridges, ps[i]).Ok?
    ensures Clashes(fieldBridgeExists, Placed(fieldBridgeExists, bridges, ps[i]).value, ps, i + 1)
        <==> Clashes(fieldBridgeExists, bridges, ps, i)
  {
    var b := Placed(fieldBridgeExists, bridges, ps[i]).value;
    PlacedEffect(fieldBridgeExists, bridges, ps[i]);
    if Clashes(fieldBridgeExists, b, ps, i + 1) {
      ClashBefore(t, fieldBridgeExists, ps, i, bridges);
    }
    if Clashes(fieldBridgeExists, bridges, ps, i) {
      ClashAfter(t, fieldBridgeExists, ps, i, bridges);
    }
  }

  lemma ClashBefore(
    t: TypeId, fieldBridgeExists: bool, ps: seq<ParameterDefinition>, i: nat, bridges: seq<ClassBridgeDefinition>)
    requires i < |ps| && Placed(fieldBridgeExists, bridges, ps[i]).Ok?
    requires Clashes(fieldBridgeExists, Placed(fieldBridgeExists, bridges, ps[i]).value, ps, i + 1)
    ensures Clashes(fieldBridgeExists, bridges, ps, i)
  {
    var b := Placed(fieldBridgeExists, bridges, ps[i]).value;
    PlacedEffect(fieldBridgeExists, bridges, ps[i]);
    var k :| i + 1 <= k < |ps| && Clash(fieldBridgeExists, b, ps, i + 1, k);
    PlacedKeepsTargets(t, fieldBridgeExists, bridges, ps[i], ps[k]);
    var j := Target(fieldBridgeExists, b, ps[k]).value;
    if ps[k].name in b[j].parameters {
      if ps[k].name !in bridges[j].parameters {
        assert Target(fieldBridgeExists, bridges, ps[i]) == Some(j) && ps[i].name == ps[k].name;
      }
    } else {
      var k2 :| i + 1 <= k2 < k && Target(fieldBridgeExists, b, ps[k2]) == Some(j) && ps[k2].name == ps[k].name;
      PlacedKeepsTargets(t, fieldBridgeExists, bridges, ps[i], ps[k2]);
    }
    assert Clash(fieldBridgeExists, bridges, ps, i, k);
  }

  lemma ClashAfter(
    t: TypeId, fieldBridgeExists: bool, ps: seq<ParameterDefinition>, i: nat, bridges: seq<ClassBridgeDefinition>)
    requires i < |ps| && Placed(fieldBridgeExists, bridges, ps[i]).Ok?
    requires Clashes(fieldBridgeExists, bridges, ps, i)
    ensures Clashes(fieldBridgeExists, Placed(fieldBridgeExists, bridges, ps[i]).value, ps, i + 1)
  {
    var b := Placed(fieldBridgeExists, bridges, ps[i]).value;
    PlacedEffect(fieldBridgeExists, bridges, ps[i]);
    var k :| i <= k < |ps| && Clash(fieldBridgeExists, bridges, ps, i, k);
    assert k != i;
    PlacedKeepsTargets(t, fieldBridgeExists, bridges, ps[i], ps[k]);
    var j := Target(fieldBridgeExists, bridges, ps[k]).value;
    if ps[k].name !in bridges[j].parameters {
      var k2 :| i <= k2 < k && Target(fieldBridgeExists, bridges, ps[k2]) == Some(j) && ps[k2].name == ps[k].name;
      if k2 != i {
        PlacedKeepsTargets(t, fieldBridgeExists, bridges, ps[i], ps[k2]);
      }
    }
    assert Clash(fieldBridgeExists, b, ps, i + 1, k);
  }

  /** Assigning parameters changes every class bridge definition in its parameters only. */
  lemma {:induction false} AssignmentKeepsBridges(
    t: TypeId, fieldBridgeExists: bool, ps: seq<ParameterDefinition>, i: nat,
    bridges: seq<ClassBridgeDefinition>, log: seq<Diagnostic>)
    requires i <= |ps|
    ensures var r := AssignParameters(t, fieldBridgeExists, ps, i, bridges, log);
      r.Ok? ==>
        && |r.value.bridges| == |bridges|
        && forall j :: 0 <= j < |bridges| ==> r.value.bridges[j] == bridges[j].(parameters := r.value.bridges[j].parameters)
    decreases |ps| - i
  {
    if i < |ps| {
      var p := ps[i];
      if p.owner == "" {
        if fieldBridgeExists {
          AssignmentKeepsBridges(t, fieldBridgeExists, ps, i + 1, bridges, log);
        } else if |bridges| == 1 {
          var b := AddParameter(bridges, 0, p);
          if b.Ok? {
            AssignmentKeepsBridges(t, fieldBridgeExists, ps, i + 1, b.value, log);
          }
        } else {
          AssignmentKeepsBridges(t, fieldBridgeExists, ps, i + 1, bridges, log + [ParameterNeedsOwner(t, p)]);
        }
      } else {
        var j := FirstOwner(bridges, p.owner);
        if j.None? {
          AssignmentKeepsBridges(t, fieldBridgeExists, ps, i + 1, bridges, log + [NoMatchingOwner(t, p)]);
        } else {
          var b := AddParameter(bridges, j.value, p);
          if b.Ok? {
            AssignmentKeepsBridges(t, fieldBridgeExists, ps, i + 1, b.value, log);
          }
        }
      }
    }
  }

  /** The step fails exactly when some parameter meets a name already on its bridge, and then with `DuplicateParameter`. */
  lemma {:induction false} AssignmentFailsIffClash(
    t: TypeId, fieldBridgeExists: bool, ps: seq<ParameterDefinition>, i: nat,
    bridges: seq<ClassBridgeDefinition>, log: seq<Diagnostic>)
    requires i <= |ps|
    ensures var r := AssignParameters(t, fieldBridgeExists, ps, i, bridges, log);
      && (r.Err? <==> Clashes(fieldBridgeExists, bridges, ps, i))
      && (r.Err? ==> r.error.DuplicateParameter?)
    decreases |ps| - i
  {
    if i < |ps| {
      AssignStep(t, fieldBridgeExists, ps, i, bridges, log);
      var placed := Placed(fieldBridgeExists, bridges, ps[i]);
      if placed.Err? {
        assert Clash(fieldBridgeExists, bridges, ps, i, i);
      } else {
        AssignmentFailsIffClash(t, fieldBridgeExists, ps, i + 1, placed.value,
                                log + Logged(t, fieldBridgeExists, bridges, ps[i]));
        ClashesAfterPlacing(t, fieldBridgeExists, ps, i, bridges);
      }
    }
  }
}
