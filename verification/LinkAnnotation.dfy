// Marks on dependent objects (controllers/bindingtarget/objectmarker.go): a comma-separated
// annotation with the referencing bindings and a label with the managing one.
module LinkAnnotation {
  import opened Core
  import opened Strings

  const LINK_ANNOTATION := "spi.appstudio.redhat.com/linked-access-token-binding"
  const MANAGED_BY_LABEL := "spi.appstudio.redhat.com/managed-by-binding"

  /** Names of Kubernetes objects are non-empty and have no comma. */
  predicate IsName(n: string) {
    n != "" && ',' !in n
  }

  /** The names in a comma-separated value. */
  function Names(value: string): seq<string> {
    if value == "" then [] else Split(value, ',')
  }

  function Remove(names: seq<string>, name: string): (rest: seq<string>)
    ensures forall n :: n in rest <==> n in names && n != name
  {
    if names == [] then []
    else (if names[0] == name then [] else [names[0]]) + Remove(names[1..], name)
  }

  /** The two marks of an object, as the annotation and label maps hold them. */
  datatype Marks = Marks(annotation: Option<string>, managedBy: Option<string>) {
    function NameList(): seq<string> {
      if annotation.Some? then Names(annotation.value) else []
    }

    /** What the annotation means: the set of referencing bindings. */
    function References(): set<string> {
      set n | n in NameList()
    }

    predicate IsReferencedBy(name: string) {
      name in NameList()
    }

    predicate IsManagedBy(name: string) {
      IsReferencedBy(name) && managedBy == Some(name)
    }

    /** An annotation is present only to name bindings, and it is written canonically. */
    ghost predicate Valid() {
      annotation.Some? ==>
        && |NameList()| > 0
        && (forall n :: n in NameList() ==> IsName(n))
        && annotation.value == Join(NameList(), ',')
    }
  }

  const UNMARKED := Marks(None, None)

  datatype Operation =
    | MarkManaged(name: string) | MarkReferenced(name: string)
    | UnmarkManaged(name: string) | UnmarkReferenced(name: string)

  function Refer(m: Marks, n: string): Marks {
    if m.IsReferencedBy(n) then m else m.(annotation := Some(Join(m.NameList() + [n], ',')))
  }

  /** The effect of one call on the marks. */
  function Apply(m: Marks, op: Operation): Marks {
    match op
    case MarkReferenced(n) => Refer(m, n)
    case MarkManaged(n) => Refer(m, n).(managedBy := Some(n))
    case UnmarkReferenced(n) =>
      if !m.IsReferencedBy(n) then m
      else
        var rest := Remove(m.NameList(), n);
        m.(annotation := if rest == [] then None else Some(Join(rest, ',')))
    case UnmarkManaged(n) => if m.managedBy == Some(n) then m.(managedBy := None) else m
  }

  /** What one call does to the set that the annotation represents. */
  function References(refs: set<string>, op: Operation): set<string> {
    match op
    case MarkReferenced(n) => refs + {n}
    case MarkManaged(n) => refs + {n}
    case UnmarkReferenced(n) => refs - {n}
    case UnmarkManaged(_) => refs
  }

  lemma JoinIsDecoded(names: seq<string>)
    requires |names| > 0 && forall n :: n in names ==> IsName(n)
    ensures Names(Join(names, ',')) == names
  {
    SplitUndoesJoin(names, ',');
    assert names[0] in names;
    assert Split("", ',') == [""];
  }

  /** Each call keeps the annotation well-formed and acts on it as on a set. */
  lemma ApplyRefinesSet(m: Marks, op: Operation)
    requires m.Valid() && IsName(op.name)
    ensures Apply(m, op).Valid()
    ensures Apply(m, op).References() == References(m.References(), op)
    ensures Apply(m, op).annotation.None? <==> References(m.References(), op) == {}
  {
    var m' := Apply(m, op);
    if op.MarkReferenced? || op.MarkManaged? {
      if !m.IsReferencedBy(op.name) {
        JoinIsDecoded(m.NameList() + [op.name]);
      }
    } else if op.UnmarkReferenced? && m.IsReferencedBy(op.name) {
      var rest := Remove(m.NameList(), op.name);
      if rest != [] {
        JoinIsDecoded(rest);
        assert rest[0] in rest;
      }
    }
    assert m'.annotation.Some? ==> m'.NameList()[0] in m'.References();
  }

  function Run(m: Marks, ops: seq<Operation>): Marks {
    if ops == [] then m else Apply(Run(m, ops[..|ops| - 1]), ops[|ops| - 1])
  }

  /** Is the last mark or unmark of the reference from `name` a mark? */
  predicate LastReferenceIsMark(ops: seq<Operation>, name: string) {
    if ops == [] then false
    else
      var op := ops[|ops| - 1];
      if op.name == name && !op.UnmarkManaged? then !op.UnmarkReferenced?
      else LastReferenceIsMark(ops[..|ops| - 1], name)
  }

  /**
   Main result: after any calls by any number of bindings the annotation decodes to exactly the
   bindings whose last reference operation was a mark, is absent when there is none, and at most
   one binding manages the object.
   */
  lemma {:induction false} RunRefinesSet(ops: seq<Operation>)
    requires forall op :: op in ops ==> IsName(op.name)
    ensures var m := Run(UNMARKED, ops);
            && m.Valid()
            && (forall n :: n in m.References() <==> LastReferenceIsMark(ops, n))
            && (m.annotation.None? <==> m.References() == {})
            && (forall a, b :: m.IsManagedBy(a) && m.IsManagedBy(b) ==> a == b)
  {
    if ops != [] {
      RunRefinesSet(ops[..|ops| - 1]);
      assert ops[|ops| - 1] in ops;
      ApplyRefinesSet(Run(UNMARKED, ops[..|ops| - 1]), ops[|ops| - 1]);
    }
  }

  /** The call at i made `name` the manager, and no later call put another in its place or let it go. */
  predicate ManagesSince(ops: seq<Operation>, name: string, i: int) {
    && 0 <= i < |ops| && ops[i] == MarkManaged(name)
    && forall j :: i < j < |ops| ==> !ops[j].MarkManaged? && ops[j] != UnmarkManaged(name)
  }

  /**
   Main result: after any calls the label names the binding that took the object over last, unless that
   binding itself has let it go since.
   */
  lemma {:induction false} LastManagerIsNamed(ops: seq<Operation>, name: string)
    ensures Run(UNMARKED, ops).managedBy == Some(name) <==> exists i :: ManagesSince(ops, name, i)
  {
    if ops != [] {
      var before, last := ops[..|ops| - 1], |ops| - 1;
      LastManagerIsNamed(before, name);
      if ops[last] == MarkManaged(name) {
        assert ManagesSince(ops, name, last);
      } else if ops[last].MarkManaged? || ops[last] == UnmarkManaged(name) {
        assert forall i :: ManagesSince(ops, name, i) ==> i == last;
      } else {
        assert forall i :: ManagesSince(ops, name, i) <==> ManagesSince(before, name, i);
      }
    }
  }

  /** A Kubernetes object with its labels and annotations, marked and unmarked in place. */
  class MarkedObject {
    const ns: string
    var labels: map<string, string>
    var annotations: map<string, string>

    constructor (ns: string)
      ensures this.ns == ns && View() == UNMARKED && labels == map[] && annotations == map[]
    {
      this.ns := ns;
      labels, annotations := map[], map[];
    }

    function View(): Marks
      reads this
    {
      Marks(
        if LINK_ANNOTATION in annotations then Some(annotations[LINK_ANNOTATION]) else None,
        if MANAGED_BY_LABEL in labels then Some(labels[MANAGED_BY_LABEL]) else None)
    }

    method IsReferencedBy(name: string) returns (refed: bool)
      ensures refed == View().IsReferencedBy(name)
    {
      if |annotations| == 0 {
        return false;
      }
      var anno := if LINK_ANNOTATION in annotations then annotations[LINK_ANNOTATION] else "";
      refed := name in Names(anno);
    }

    method IsManagedBy(name: string) returns (managed: bool)
      requires name != ""
      ensures managed == View().IsManagedBy(name)
    {
      var refed := IsReferencedBy(name);
      var manager := if MANAGED_BY_LABEL in labels then labels[MANAGED_BY_LABEL] else "";
      managed := refed && manager == name;
    }

    method MarkReferenced(name: string) returns (changed: bool)
      modifies this`annotations
      ensures View() == Apply(old(View()), Operation.MarkReferenced(name))
      ensures annotations - {LINK_ANNOTATION} == old(annotations) - {LINK_ANNOTATION}
      ensures changed == !old(View()).IsReferencedBy(name)
    {
      changed := false;
      var anno := if LINK_ANNOTATION in annotations then annotations[LINK_ANNOTATION] else "";
      var val := Names(anno);
      if name !in val {
        changed := true;
        val := val + [name];
        annotations := annotations[LINK_ANNOTATION := Join(val, ',')];
      }
    }

    method MarkManaged(name: string) returns (changed: bool)
      requires name != ""
      modifies this`annotations, this`labels
      ensures View() == Apply(old(View()), Operation.MarkManaged(name))
      ensures annotations - {LINK_ANNOTATION} == old(annotations) - {LINK_ANNOTATION}
      ensures labels - {MANAGED_BY_LABEL} == old(labels) - {MANAGED_BY_LABEL}
      ensures changed == !(old(View()).IsReferencedBy(name) && old(View()).managedBy == Some(name))
    {
      changed := MarkReferenced(name);
      var val := if MANAGED_BY_LABEL in labels then labels[MANAGED_BY_LABEL] else "";
      if val != name {
        changed := true;
        labels := labels[MANAGED_BY_LABEL := name];
      }
    }

    /** Reports whether the label was there, not whether it was removed. */
    method UnmarkManaged(name: string) returns (contained: bool)
      requires name != ""
      modifies this`labels
      ensures View() == Apply(old(View()), Operation.UnmarkManaged(name))
      ensures labels - {MANAGED_BY_LABEL} == old(labels) - {MANAGED_BY_LABEL}
      ensures contained == old(View()).managedBy.Some?
    {
      contained := MANAGED_BY_LABEL in labels;
      var val := if contained then labels[MANAGED_BY_LABEL] else "";
      if val == name {
        labels := labels - {MANAGED_BY_LABEL};
      }
    }

    method UnmarkReferenced(name: string) returns (changed: bool)
      modifies this`annotations
      ensures View() == Apply(old(View()), Operation.UnmarkReferenced(name))
      ensures annotations - {LINK_ANNOTATION} == old(annotations) - {LINK_ANNOTATION}
      ensures changed == old(View()).IsReferencedBy(name)
    {
      if LINK_ANNOTATION !in annotations {
        return false;
      }
      var names := Names(annotations[LINK_ANNOTATION]);
      changed := name in names;
      if changed {
        names := Remove(names, name);
        if |names| == 0 {
          annotations := annotations - {LINK_ANNOTATION};
        } else {
          annotations := annotations[LINK_ANNOTATION := Join(names, ',')];
        }
      }
    }

    method GetReferencingTargets() returns (keys: seq<Key>)
      ensures (set k | k in keys) == set n | n in View().References() :: Key(ns, n)
    {
      keys := [];
      if LINK_ANNOTATION in annotations {
        var names := Names(annotations[LINK_ANNOTATION]);
        for i := 0 to |names|
          invariant |keys| == i && forall j :: 0 <= j < i ==> keys[j] == Key(ns, names[j])
        {
          keys := keys + [Key(ns, names[i])];
        }
        forall k | k in keys ensures k.ns == ns && k.name in names {
          var j :| 0 <= j < |keys| && keys[j] == k;
        }
        forall n | n in names ensures Key(ns, n) in keys {
          var j :| 0 <= j < |names| && names[j] == n;
          assert keys[j] == Key(ns, n);
        }
      }
    }
  }
}
