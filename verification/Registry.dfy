/** What is on the bus (src/daemon.c): interfaces are published on object skeletons, one
    skeleton a path, and a path whose last interface goes is unexported as a whole. */
module Registry {
  type Path = string

  /** An interface instance; instances of one interface differ in their identity, which are the
      names that they were made for. */
  datatype Thing = Thing(iface: string, id: seq<string>)

  datatype Op = Publish(path: Path, thing: Thing) | Unpublish(path: Path, thing: Thing) | UnpublishAll(path: Path)

  // --- Skeletons ----------------------------------------------------------------------------

  // The interfaces of each skeleton, by path; those of one skeleton by name.
  type Interfaces = map<string, Thing>
  type Objects = map<Path, Interfaces>

  function Without(interfaces: Interfaces, thing: Thing): Interfaces {
    map n | n in interfaces && interfaces[n] != thing :: interfaces[n]
  }

  predicate IsOnly(interfaces: Interfaces, thing: Thing) {
    forall n :: n in interfaces ==> interfaces[n] == thing
  }

  /** The objects after an operation, with the case split of the source: remove the interface,
      or unexport the object, but never both. */
  function After(o: Objects, op: Op): Objects {
    match op
    case Publish(p, thing) => o[p := (if p in o then o[p] else map[])[thing.iface := thing]]
    case Unpublish(p, thing) =>
      if p !in o then o
      else if IsOnly(o[p], thing) then o - {p}
      else o[p := Without(o[p], thing)]
    case UnpublishAll(p) => o - {p}
  }

  function AfterAll(ops: seq<Op>): Objects {
    if ops == [] then map[] else After(AfterAll(ops[..|ops| - 1]), ops[|ops| - 1])
  }

  predicate ObjectInv(p: Path, interfaces: Interfaces) {
    interfaces != map[] && forall n :: n in interfaces ==> interfaces[n].iface == n
  }

  predicate Inv(o: Objects) {
    forall p :: p in o ==> ObjectInv(p, o[p])
  }

  lemma RemoveKeepsInv(p: Path, interfaces: Interfaces, thing: Thing)
    requires ObjectInv(p, interfaces) && !IsOnly(interfaces, thing)
    ensures ObjectInv(p, Without(interfaces, thing))
  {
    var n :| n in interfaces && interfaces[n] != thing;
    assert n in Without(interfaces, thing);
  }

  lemma AddKeepsInv(p: Path, interfaces: Interfaces, thing: Thing)
    requires forall n :: n in interfaces ==> interfaces[n].iface == n
    ensures ObjectInv(p, interfaces[thing.iface := thing])
  {
    assert thing.iface in interfaces[thing.iface := thing];
  }

  lemma InvStep(o: Objects, op: Op)
    requires Inv(o)
    ensures Inv(After(o, op))
  {
    match op
    case Publish(p, thing) => AddKeepsInv(p, if p in o then o[p] else map[], thing);
    case Unpublish(p, thing) =>
      if p in o && !IsOnly(o[p], thing) { RemoveKeepsInv(p, o[p], thing); }
    case UnpublishAll(_) =>
  }

  class ObjectSkeleton {
    const path: Path
    var interfaces: Interfaces

    constructor (path: Path)
      ensures this.path == path && interfaces == map[]
    {
      this.path := path;
      interfaces := map[];
    }

    /** An instance of the same interface is replaced. */
    method AddInterface(thing: Thing)
      modifies this
      ensures interfaces == old(interfaces)[thing.iface := thing]
    {
      interfaces := interfaces[thing.iface := thing];
    }

    /** Another instance of the same interface stays. */
    method RemoveInterface(thing: Thing)
      requires forall n :: n in interfaces ==> interfaces[n].iface == n
      modifies this
      ensures interfaces == Without(old(interfaces), thing)
    {
      if thing.iface in interfaces && interfaces[thing.iface] == thing {
        interfaces := interfaces - {thing.iface};
      }
    }
  }

  class StorageDaemon {
    var exported: map<Path, ObjectSkeleton>

    ghost predicate Valid()
      reads this, exported.Values
    {
      (forall p :: p in exported ==> exported[p].path == p) && Inv(Skeletons())
    }

    ghost function Skeletons(): Objects
      reads this, exported.Values
    {
      map p | p in exported :: exported[p].interfaces
    }

    constructor ()
      ensures Valid() && Skeletons() == AfterAll([])
    {
      exported := map[];
    }

    method SkeletonFor(path: Path) returns (skeleton: ObjectSkeleton)
      requires Valid()
      ensures skeleton.path == path && (if path in exported then skeleton == exported[path] else fresh(skeleton))
      ensures skeleton.interfaces == if path in Skeletons() then Skeletons()[path] else map[]
    {
      if path in exported {
        skeleton := exported[path];
      } else {
        skeleton := new ObjectSkeleton(path);
      }
    }

    // The new interfaces of one skeleton are in place.
    method Export(skeleton: ObjectSkeleton, ghost before: Objects)
      requires forall p :: p in exported && p != skeleton.path ==>
                 p in before && exported[p].path == p && exported[p].interfaces == before[p]
      requires exported.Keys + {skeleton.path} == before.Keys + {skeleton.path}
      modifies this
      ensures exported == old(exported)[skeleton.path := skeleton]
      ensures (forall p :: p in exported ==> exported[p].path == p)
      ensures Skeletons() == before[skeleton.path := skeleton.interfaces]
    {
      exported := exported[skeleton.path := skeleton];
    }

    method Publish(path: Path, thing: Thing)
      requires Valid()
      modifies this, exported.Values
      ensures Valid() && fresh(exported.Values - old(exported.Values))
      ensures Skeletons() == After(old(Skeletons()), Op.Publish(path, thing))
    {
      ghost var before := Skeletons();
      InvStep(before, Op.Publish(path, thing));
      var skeleton := SkeletonFor(path);
      skeleton.AddInterface(thing);
      Export(skeleton, before);
    }

    method LooksOnly(skeleton: ObjectSkeleton, thing: Thing) returns (unexport: bool)
      ensures unexport == IsOnly(skeleton.interfaces, thing)
    {
      unexport := true;
      var todo := skeleton.interfaces.Keys;
      while todo != {}
        invariant todo <= skeleton.interfaces.Keys
        invariant unexport <==> forall n :: n in skeleton.interfaces && n !in todo ==> skeleton.interfaces[n] == thing
      {
        var n :| n in todo;
        if skeleton.interfaces[n] != thing {
          unexport := false;
        }
        todo := todo - {n};
      }
    }

    method Unpublish(path: Path, thing: Thing)
      requires Valid()
      modifies this, exported.Values
      ensures Valid() && exported.Values <= old(exported.Values)
      ensures Skeletons() == After(old(Skeletons()), Op.Unpublish(path, thing))
    {
      InvStep(Skeletons(), Op.Unpublish(path, thing));
      if path !in exported {
        return;
      }
      var skeleton := exported[path];
      assert ObjectInv(path, Skeletons()[path]);
      var unexport := LooksOnly(skeleton, thing);
      if !unexport {
        skeleton.RemoveInterface(thing);
      } else {
        exported := exported - {path};
      }
      assert Skeletons() == After(old(Skeletons()), Op.Unpublish(path, thing));
    }

    method UnpublishAll(path: Path)
      requires Valid()
      modifies this
      ensures Valid() && exported.Values <= old(exported.Values)
      ensures Skeletons() == After(old(Skeletons()), Op.UnpublishAll(path))
    {
      InvStep(Skeletons(), Op.UnpublishAll(path));
      if path in exported {
        exported := exported - {path};
      }
      assert Skeletons() == After(old(Skeletons()), Op.UnpublishAll(path));
    }
  }

  // --- The abstract registry ----------------------------------------------------------------

  /** Which instances are where, without objects. */
  type Table = set<(Path, Thing)>

  function Flat(o: Objects): Table {
    set p, thing | p in o && thing in o[p].Values :: (p, thing)
  }

  /** Publishing displaces an instance of the same interface at the path; unpublishing removes
      exactly the instance. */
  function Apply(t: Table, op: Op): Table {
    match op
    case Publish(p, thing) => (set e | e in t && !(e.0 == p && e.1.iface == thing.iface)) + {(p, thing)}
    case Unpublish(p, thing) => t - {(p, thing)}
    case UnpublishAll(p) => set e | e in t && e.0 != p
  }

  function ApplyAll(ops: seq<Op>): Table {
    if ops == [] then {} else Apply(ApplyAll(ops[..|ops| - 1]), ops[|ops| - 1])
  }

  // Within one object an instance is found by its name.
  lemma FoundByName(p: Path, interfaces: Interfaces, thing: Thing)
    requires ObjectInv(p, interfaces)
    ensures thing in interfaces.Values <==> thing.iface in interfaces && interfaces[thing.iface] == thing
  {
  }

  lemma FlatAt(o: Objects, p: Path, thing: Thing)
    requires Inv(o)
    ensures (p, thing) in Flat(o) <==> p in o && thing.iface in o[p] && o[p][thing.iface] == thing
  {
    if p in o { FoundByName(p, o[p], thing); }
  }

  lemma RefinesAt(o: Objects, op: Op, e: (Path, Thing))
    requires Inv(o)
    ensures e in Flat(After(o, op)) <==> e in Apply(Flat(o), op)
  {
    InvStep(o, op);
    FlatAt(o, e.0, e.1);
    FlatAt(After(o, op), e.0, e.1);
    if op.Unpublish? && op.path == e.0 && e.0 in o && IsOnly(o[e.0], op.thing) {
      assert e in Flat(o) ==> e.1 == op.thing;
    }
  }

  lemma Refines(o: Objects, op: Op)
    requires Inv(o)
    ensures Flat(After(o, op)) == Apply(Flat(o), op)
  {
    forall e: (Path, Thing)
      ensures e in Flat(After(o, op)) <==> e in Apply(Flat(o), op)
    {
      RefinesAt(o, op, e);
    }
  }

  /** Refinement: after any calls the objects hold what the abstract registry holds, and a path
      is exported exactly if something is published there. */
  lemma {:induction false} RefinesAlways(ops: seq<Op>)
    ensures Inv(AfterAll(ops)) && Flat(AfterAll(ops)) == ApplyAll(ops)
    ensures forall p :: p in AfterAll(ops) <==> exists thing :: (p, thing) in ApplyAll(ops)
  {
    if ops != [] {
      var last := |ops| - 1;
      RefinesAlways(ops[..last]);
      InvStep(AfterAll(ops[..last]), ops[last]);
      Refines(AfterAll(ops[..last]), ops[last]);
    }
    forall p
      ensures p in AfterAll(ops) <==> exists thing :: (p, thing) in ApplyAll(ops)
    {
      if p in AfterAll(ops) {
        assert ObjectInv(p, AfterAll(ops)[p]);
        var n :| n in AfterAll(ops)[p];
        assert (p, AfterAll(ops)[p][n]) in Flat(AfterAll(ops));
      }
    }
  }

  // --- History ------------------------------------------------------------------------------

  /** The operation ends the publication of `thing` at `p`. */
  predicate Ends(op: Op, p: Path, thing: Thing) {
    && op.path == p
    && match op
       case Publish(_, other) => other.iface == thing.iface
       case Unpublish(_, other) => other == thing
       case UnpublishAll(_) => true
  }

  ghost predicate IsPublished(ops: seq<Op>, p: Path, thing: Thing) {
    exists i :: 0 <= i < |ops| && ops[i] == Publish(p, thing) &&
                forall k :: i < k < |ops| ==> !Ends(ops[k], p, thing)
  }

  lemma PublishedOneMore(ops: seq<Op>, op: Op, p: Path, thing: Thing)
    ensures IsPublished(ops + [op], p, thing) <==>
              op == Publish(p, thing) || (IsPublished(ops, p, thing) && !Ends(op, p, thing))
  {
    var longer := ops + [op];
    assert longer[|ops|] == op;
    if IsPublished(ops, p, thing) && !Ends(op, p, thing) {
      var i :| 0 <= i < |ops| && ops[i] == Publish(p, thing) && forall k :: i < k < |ops| ==> !Ends(ops[k], p, thing);
      assert longer[i] == ops[i] && forall k :: i < k < |longer| ==> !Ends(longer[k], p, thing);
    }
    if IsPublished(longer, p, thing) {
      var i :| 0 <= i < |longer| && longer[i] == Publish(p, thing) && forall k :: i < k < |longer| ==> !Ends(longer[k], p, thing);
      assert forall k :: i < k < |ops| ==> ops[k] == longer[k];
      assert i < |ops| ==> ops[i] == longer[i];
    }
  }

  /** After any calls, an instance is at a path exactly if it was published there and nothing
      after that displaced or removed it: instances and paths next to it do not matter. */
  lemma {:induction false} TableIsHistory(ops: seq<Op>, p: Path, thing: Thing)
    ensures (p, thing) in ApplyAll(ops) <==> IsPublished(ops, p, thing)
  {
    if ops != [] {
      var last := |ops| - 1;
      TableIsHistory(ops[..last], p, thing);
      assert ops == ops[..last] + [ops[last]];
      PublishedOneMore(ops[..last], ops[last], p, thing);
    }
  }

  /** What was displaced may still be unpublished later: its successor stays. */
  lemma LateUnpublish(ops: seq<Op>, p: Path, thing: Thing)
    requires !IsPublished(ops, p, thing)
    ensures ApplyAll(ops + [Unpublish(p, thing)]) == ApplyAll(ops)
  {
    assert (ops + [Unpublish(p, thing)])[..|ops|] == ops;
    TableIsHistory(ops, p, thing);
  }
}
