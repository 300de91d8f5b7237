/**
  The value-level specification of the Cat Scroller model: what the list of
  cats and the cursor hold, and what each of the four model operations does
  to them. The classes in AppModel are proved against these functions.
*/
module CatStore {

  /** The observable state of one cat: its immutable name and colour and its alive flag. */
  datatype Record = Record(name: string, colour: string, alive: bool)

  /** The list of cats, in insertion order, and the index of the cat on display. */
  datatype Store = Store(cats: seq<Record>, current: int)

  /** The model's invariant: there is always a cat, and the cursor points at one. */
  predicate Valid(s: Store) {
    |s.cats| >= 1 && 0 <= s.current < |s.cats|
  }

  function Min(a: int, b: int): int { if a <= b then a else b }

  function Max(a: int, b: int): int { if a >= b then a else b }

  /** A freshly constructed cat is alive. */
  function NewRecord(name: string, colour: string): (r: Record)
    ensures r.name == name && r.colour == colour && r.alive
  {
    Record(name, colour, true)
  }

  /** The five cats the model is seeded with, cursor on the first. */
  function Seed(): (s: Store)
    ensures Valid(s) && |s.cats| == 5 && s.current == 0
    ensures forall i :: 0 <= i < |s.cats| ==> s.cats[i].alive
  {
    Store([NewRecord("Gary", "Ginger"),
           NewRecord("Sally", "Black"),
           NewRecord("Harry", "White"),
           NewRecord("Tina", "Tabby"),
           NewRecord("Phil", "Tabby")], 0)
  }

  /** Move the cursor up by one, then clamp it to the last index. */
  function Next(s: Store): (t: Store)
    ensures t.cats == s.cats
    ensures t.current == Min(s.current + 1, |s.cats| - 1)
    ensures Valid(s) ==> Valid(t)
    ensures Valid(s) ==> (t == s <==> s.current == |s.cats| - 1)
  {
    var c := s.current + 1;
    if c > |s.cats| - 1 then s.(current := |s.cats| - 1) else s.(current := c)
  }

  /** Move the cursor down by one, then clamp it at 0. */
  function Prev(s: Store): (t: Store)
    ensures t.cats == s.cats
    ensures t.current == Max(s.current - 1, 0)
    ensures Valid(s) ==> Valid(t)
    ensures Valid(s) ==> (t == s <==> s.current == 0)
  {
    var c := s.current - 1;
    if c < 0 then s.(current := 0) else s.(current := c)
  }

  /** Append a new, alive cat and put the cursor on it. */
  function Append(s: Store, name: string, colour: string): (t: Store)
    ensures |t.cats| == |s.cats| + 1
    ensures t.cats[..|s.cats|] == s.cats
    ensures t.cats[|s.cats|] == Record(name, colour, true)
    ensures t.current == |t.cats| - 1
    ensures Valid(t)
  {
    var cats := s.cats + [NewRecord(name, colour)];
    Store(cats, |cats| - 1)
  }

  /** Mark the cat under the cursor as dead; nothing else changes. */
  function KillCurrent(s: Store): (t: Store)
    requires Valid(s)
    ensures Valid(t) && t.current == s.current && |t.cats| == |s.cats|
    ensures !t.cats[s.current].alive
    ensures t.cats[s.current].name == s.cats[s.current].name
    ensures t.cats[s.current].colour == s.cats[s.current].colour
    ensures forall i :: 0 <= i < |s.cats| && i != s.current ==> t.cats[i] == s.cats[i]
    ensures t == s <==> !s.cats[s.current].alive
  {
    var c := s.cats[s.current];
    s.(cats := s.cats[s.current := c.(alive := false)])
  }

  /** Killing twice leaves the same state as killing once. */
  lemma KillIdempotent(s: Store)
    requires Valid(s)
    ensures KillCurrent(KillCurrent(s)) == KillCurrent(s)
  {
  }

  /** The four model operations, as a value, so that runs of them can be stated. */
  datatype Op = NextCat | PrevCat | NewCat(name: string, colour: string) | KillCat

  function Apply(s: Store, op: Op): (t: Store)
    requires Valid(s)
    ensures Valid(t)
  {
    match op
    case NextCat => Next(s)
    case PrevCat => Prev(s)
    case NewCat(n, c) => Append(s, n, c)
    case KillCat => KillCurrent(s)
  }

  /** The state after the operations `ops`, applied in order from `s`. */
  function Run(s: Store, ops: seq<Op>): Store
    requires Valid(s)
    decreases |ops|
  {
    if ops == [] then s else Run(Apply(s, ops[0]), ops[1..])
  }

  /** The operation `op`, `k` times in a row. */
  function Repeat(op: Op, k: nat): (r: seq<Op>)
    ensures |r| == k
    ensures forall i :: 0 <= i < k ==> r[i] == op
  {
    if k == 0 then [] else [op] + Repeat(op, k - 1)
  }

  /** How many of `ops` add a cat. */
  function CountNew(ops: seq<Op>): nat {
    if ops == [] then 0 else (if ops[0].NewCat? then 1 else 0) + CountNew(ops[1..])
  }

  /**
    `t` is a possible later state of `s`: no cat was removed or reordered, names
    and colours are unchanged, and a dead cat is still dead.
  */
  predicate Extends(s: Store, t: Store) {
    |s.cats| <= |t.cats| &&
    forall i :: 0 <= i < |s.cats| ==>
      t.cats[i].name == s.cats[i].name &&
      t.cats[i].colour == s.cats[i].colour &&
      (t.cats[i].alive ==> s.cats[i].alive)
  }

  lemma ExtendsTransitive(s: Store, t: Store, u: Store)
    requires Extends(s, t) && Extends(t, u)
    ensures Extends(s, u)
  {
  }

  lemma ApplyExtends(s: Store, op: Op)
    requires Valid(s)
    ensures Extends(s, Apply(s, op))
  {
  }

  /** The clamping law: from a valid state, every run of operations ends in a valid state. */
  lemma {:induction false} RunPreservesValid(s: Store, ops: seq<Op>)
    requires Valid(s)
    ensures Valid(Run(s, ops))
    decreases |ops|
  {
    if ops != [] {
      RunPreservesValid(Apply(s, ops[0]), ops[1..]);
    }
  }

  /** Cats are only ever appended, never removed, renamed or revived. */
  lemma {:induction false} RunExtends(s: Store, ops: seq<Op>)
    requires Valid(s)
    ensures Extends(s, Run(s, ops))
    decreases |ops|
  {
    if ops != [] {
      var t := Apply(s, ops[0]);
      ApplyExtends(s, ops[0]);
      RunExtends(t, ops[1..]);
      ExtendsTransitive(s, t, Run(t, ops[1..]));
    }
  }

  /** The list grows by exactly one cat per NewCat operation and by nothing else. */
  lemma {:induction false} RunLength(s: Store, ops: seq<Op>)
    requires Valid(s)
    ensures |Run(s, ops).cats| == |s.cats| + CountNew(ops)
    decreases |ops|
  {
    if ops != [] {
      RunLength(Apply(s, ops[0]), ops[1..]);
    }
  }

  /** Pressing next `k` times moves the cursor up by `k`, stopping at the last cat. */
  lemma {:induction false} NextRepeated(s: Store, k: nat)
    requires Valid(s)
    ensures Run(s, Repeat(NextCat, k)) == s.(current := Min(s.current + k, |s.cats| - 1))
    decreases k
  {
    if k > 0 {
      var ops := Repeat(NextCat, k);
      assert ops[0] == NextCat && ops[1..] == Repeat(NextCat, k - 1);
      NextRepeated(Next(s), k - 1);
    }
  }

  /** Pressing previous `k` times moves the cursor down by `k`, stopping at the first cat. */
  lemma {:induction false} PrevRepeated(s: Store, k: nat)
    requires Valid(s)
    ensures Run(s, Repeat(PrevCat, k)) == s.(current := Max(s.current - k, 0))
    decreases k
  {
    if k > 0 {
      var ops := Repeat(PrevCat, k);
      assert ops[0] == PrevCat && ops[1..] == Repeat(PrevCat, k - 1);
      PrevRepeated(Prev(s), k - 1);
    }
  }

  /** Every state reachable from the seed is valid and still holds the five seeded cats. */
  lemma Reachable(ops: seq<Op>)
    ensures Valid(Run(Seed(), ops))
    ensures |Run(Seed(), ops).cats| >= 5
    ensures Run(Seed(), ops).cats[0].name == "Gary"
  {
    RunPreservesValid(Seed(), ops);
    RunExtends(Seed(), ops);
  }
}
