/** Checked kinds (crates/psrs-kind/src/kind.rs) and the operations on them that need no solver
    state (crates/psrs-kind/src/solve.rs).
 */
module Kinds {

  /** `Kind::Builtin`, `Kind::Named`, `Kind::RowEmpty` and `Kind::TypeVariable`: equal or not. */
  datatype Atom = Builtin(builtin: nat) | Named(declared: nat) | RowEmpty | TypeVariable(typeName: string)

  /** `Kind::App`, `Kind::Function` and `Kind::RowExtend` each hold two kinds, unified in order. */
  datatype Shape = AppShape | FunctionShape | RowShape(fieldName: string)

  datatype Kind =
    | Constant(atom: Atom)
    | Variable(id: nat)
    | Node(shape: Shape, left: Kind, right: Kind)
    | ForAll(binder: nat, body: Kind)

  /** Free kind variables. */
  function FV(k: Kind): set<nat> {
    match k
    case Constant(_) => {}
    case Variable(x) => {x}
    case Node(_, a, b) => FV(a) + FV(b)
    case ForAll(x, e) => FV(e) - {x}
  }

  /** Variables bound by a quantifier somewhere inside. */
  function Binders(k: Kind): set<nat> {
    match k
    case Node(_, a, b) => Binders(a) + Binders(b)
    case ForAll(x, e) => Binders(e) + {x}
    case _ => {}
  }

  function Size(k: Kind): nat {
    match k
    case Node(_, a, b) => 1 + Size(a) + Size(b)
    case ForAll(_, e) => 1 + Size(e)
    case _ => 0
  }

  predicate QuantifierFree(k: Kind) {
    match k
    case Node(_, a, b) => QuantifierFree(a) && QuantifierFree(b)
    case ForAll(_, _) => false
    case _ => true
  }

  predicate Occurs(x: nat, k: Kind)
    ensures Occurs(x, k) <==> x in FV(k)
  {
    match k
    case Constant(_) => false
    case Variable(y) => x == y
    case Node(_, a, b) => Occurs(x, a) || Occurs(x, b)
    case ForAll(y, e) => y != x && Occurs(x, e)
  }

  /** Replaces free variables; a quantifier removes its binder from the mapping. */
  function Substitute(k: Kind, mapping: map<nat, Kind>): Kind {
    match k
    case Constant(_) => k
    case Variable(x) => if x in mapping then mapping[x] else k
    case Node(c, a, b) => Node(c, Substitute(a, mapping), Substitute(b, mapping))
    case ForAll(x, e) => ForAll(x, Substitute(e, mapping - {x}))
  }

  /** Renaming one variable keeps the size and the binders. */
  lemma {:induction false} RenameShape(k: Kind, x: nat, y: nat, mapping: map<nat, Kind>)
    requires mapping == map[x := Variable(y)] || mapping == map[]
    ensures Size(Substitute(k, mapping)) == Size(k)
    ensures Binders(Substitute(k, mapping)) == Binders(k)
    ensures FV(Substitute(k, mapping)) <= FV(k) - mapping.Keys + {y}
  {
    match k
    case Node(_, a, b) => RenameShape(a, x, y, mapping); RenameShape(b, x, y, mapping);
    case ForAll(z, e) => RenameShape(e, x, y, mapping - {z});
    case _ =>
  }
}
