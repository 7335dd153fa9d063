/** `Constrain<T>`: a requested capability value, given as a required `exact`
    value, a preferred `ideal` value, both, or neither. */
module Constrains {
  import opened Wrappers

  /** The value a track record stores for one attribute once the block that
      configured it has run. */
  datatype Constrain<T> = Constrain(exact: Option<T>, ideal: Option<T>)

  /** A freshly created `Constrain<T>()`: neither part set. */
  function Unset<T>(): Constrain<T> {
    Constrain(None, None)
  }

  /** The two parts of a constrain. */
  datatype Side = ExactSide | IdealSide

  /** One call made inside a `field { ... }` block: `exact(v)` or `ideal(v)`. */
  datatype ConstrainOp<T> = Exact(value: T) | Ideal(value: T) {

    /** The part of the constrain that this call writes. */
    function Target(): Side {
      if Exact? then ExactSide else IdealSide
    }
  }

  /** The part `s` of `c`. */
  function At<T>(c: Constrain<T>, s: Side): Option<T> {
    match s
    case ExactSide => c.exact
    case IdealSide => c.ideal
  }

  /** One `exact(v)` or `ideal(v)` call: it sets its own part to `v`, with no
      check against the other part, and leaves the other part as it was. */
  function Apply<T>(c: Constrain<T>, op: ConstrainOp<T>): (r: Constrain<T>)
    ensures At(r, op.Target()) == Some(op.value)
    ensures forall s :: s != op.Target() ==> At(r, s) == At(c, s)
  {
    match op
    case Exact(v) => c.(exact := Some(v))
    case Ideal(v) => c.(ideal := Some(v))
  }

  /** The calls of a block, made one after the other on `c`. */
  function Run<T>(c: Constrain<T>, ops: seq<ConstrainOp<T>>): Constrain<T>
    decreases |ops|
  {
    if ops == [] then c else Apply(Run(c, ops[..|ops| - 1]), ops[|ops| - 1])
  }

  /** What a `field { ... }` block produces: its calls made on a fresh
      `Constrain<T>()`. */
  function Build<T>(build: seq<ConstrainOp<T>>): Constrain<T> {
    Run(Unset(), build)
  }

  /** `i` is the position of the last call in `ops` that writes part `s`. */
  predicate IsLastOn<T>(ops: seq<ConstrainOp<T>>, i: int, s: Side) {
    0 <= i < |ops| && ops[i].Target() == s && forall j :: i < j < |ops| ==> ops[j].Target() != s
  }

  /** After a block has run, each part holds the value of the last call that
      wrote it, or what it held before if no call wrote it. */
  lemma {:induction false} RunOn<T>(c: Constrain<T>, ops: seq<ConstrainOp<T>>, s: Side)
    ensures (forall j :: 0 <= j < |ops| ==> ops[j].Target() != s) ==> At(Run(c, ops), s) == At(c, s)
    ensures forall i :: IsLastOn(ops, i, s) ==> At(Run(c, ops), s) == Some(ops[i].value)
    decreases |ops|
  {
    if ops != [] {
      var n := |ops| - 1;
      var pre := ops[..n];
      RunOn(c, pre, s);
      assert forall j :: 0 <= j < n ==> pre[j] == ops[j];
      if ops[n].Target() != s {
        forall i | IsLastOn(ops, i, s)
          ensures At(Run(c, ops), s) == Some(ops[i].value)
        {
          assert i < n && IsLastOn(pre, i, s);
        }
      }
    }
  }

  /** The closure form of a setter: the stored constrain sets `exact` to the
      value of the block's last `exact(v)` call and `ideal` to the value of its
      last `ideal(v)` call; a part no call wrote stays absent. */
  lemma BuildOn<T>(build: seq<ConstrainOp<T>>, s: Side)
    ensures (forall j :: 0 <= j < |build| ==> build[j].Target() != s) ==> At(Build(build), s) == None
    ensures forall i :: IsLastOn(build, i, s) ==> At(Build(build), s) == Some(build[i].value)
  {
    RunOn(Unset(), build, s);
  }

  /** Nothing is validated: a block may leave both parts, either part or
      neither part set. */
  lemma AnyCombination<T>(x: T, y: T)
    ensures Build<T>([]) == Constrain(None, None)
    ensures Build([Exact(x)]) == Constrain(Some(x), None)
    ensures Build([Ideal(y)]) == Constrain(None, Some(y))
    ensures Build([Exact(x), Ideal(y)]) == Constrain(Some(x), Some(y))
  {
    assert [Exact(x), Ideal(y)][..1] == [Exact(x)];
  }

  /** The shorthand setter `field(v)`: a constrain with `exact = v` and no
      `ideal`, which is what the block `field { exact(v) }` produces. */
  function Exactly<T>(value: T): (c: Constrain<T>)
    ensures c == Build([Exact(value)])
  {
    assert [Exact(value)][..0] == [];
    assert Run(Unset(), [Exact(value)]) == Apply(Unset(), Exact(value));
    Constrain(Some(value), None)
  }

  /** The mutable receiver of a `field { ... }` block: Kotlin's
      `Constrain<T>` object, whose `exact` and `ideal` properties its methods
      reassign. */
  class MutableConstrain<T> {
    var exact: Option<T>
    var ideal: Option<T>

    constructor ()
      ensures exact == None && ideal == None
    {
      exact := None;
      ideal := None;
    }

    /** The record this object holds. */
    function Value(): Constrain<T>
      reads this
    {
      Constrain(exact, ideal)
    }

    /** `exact(v)`: sets `exact`, leaves `ideal`. */
    method Exact(value: T)
      modifies this
      ensures exact == Some(value) && ideal == old(ideal)
    {
      exact := Some(value);
    }

    /** `ideal(v)`: sets `ideal`, leaves `exact`. */
    method Ideal(value: T)
      modifies this
      ensures ideal == Some(value) && exact == old(exact)
    {
      ideal := Some(value);
    }
  }

  /** What every closure-form setter does before storing the result: create a
      fresh `Constrain<T>()` and run the block on it, call by call. */
  method ConfigureConstrain<T>(build: seq<ConstrainOp<T>>) returns (c: MutableConstrain<T>)
    ensures fresh(c)
    ensures c.Value() == Build(build)
  {
    c := new MutableConstrain();
    var i := 0;
    while i < |build|
      invariant 0 <= i <= |build|
      invariant c.Value() == Run(Unset(), build[..i])
    {
      match build[i] {
        case Exact(v) => c.Exact(v);
        case Ideal(v) => c.Ideal(v);
      }
      assert build[..i + 1][..i] == build[..i];
      i := i + 1;
    }
    assert build[..i] == build;
  }
}
