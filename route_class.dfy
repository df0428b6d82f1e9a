/**
 * The check `setDefaultRouteClass` applies to a class name before it makes
 * it the default route class.
 *
 * The source compares the name with `Route` and otherwise loops on
 * `get_parent_class` of the class it was given; the loop never moves on to
 * the parent's parent. `Validate` is that behaviour as written, with the
 * case that never returns made explicit as `Diverges`; `InheritsRoute` is
 * the evidently intended check, which walks the ancestor chain.
 *
 * The class table stands in for PHP's reflection: it maps a class name to
 * the name of its direct parent; a class that is absent has no parent
 * (`get_parent_class` returns `false`, represented here by "").
 */
module DefaultRouteClass {
  import opened Php
  import opened Routes

  type ClassTable = map<string, string>

  /** `get_parent_class($c)`: the direct parent's name, or "" where PHP returns `false`. */
  function ParentOf(classes: ClassTable, c: string): (p: string)
    ensures TruthyString(c) && c in classes ==> p == classes[c]
    ensures !(TruthyString(c) && c in classes) ==> p == ""
  {
    if TruthyString(c) && c in classes then classes[c] else ""
  }

  datatype RuntimeException = RuntimeException(message: string)

  /** How a call of `setDefaultRouteClass` ends. */
  datatype Verdict =
    | Accepted
    | Rejected(exception: RuntimeException)
    | Diverges   // the call never returns

  function RejectionMessage(cls: string): string {
    "You tried to set " + cls + " as default route class which does not inherit " + RouteClass
  }

  /**
   * `setDefaultRouteClass($cls)` as written, given the default route class
   * `current` at the time of the call.
   */
  function Validate(classes: ClassTable, cls: string, current: Option<string>): Verdict {
    if cls == RouteClass then Accepted
    else
      var parent := ParentOf(classes, cls);
      if TruthyString(parent) && parent == RouteClass then Accepted
      else if TruthyString(parent) then Diverges
      else if current == Some(cls) then Accepted
      else Rejected(RuntimeException(RejectionMessage(cls)))
  }

  /** The state of the source's `while` loop after some iterations. */
  datatype LoopState = Looping | Exited(brokeOut: bool)

  /**
   * The source's loop run for at most `fuel` iterations: each one evaluates
   * `get_parent_class($cls)` for the same `$cls`, leaves when it is falsy, and
   * breaks out when it is `Route`.
   */
  function LoopAfter(classes: ClassTable, cls: string, fuel: nat): LoopState
    decreases fuel
  {
    if fuel == 0 then Looping
    else
      var parent := ParentOf(classes, cls);
      if !TruthyString(parent) then Exited(false)
      else if parent == RouteClass then Exited(true)
      else LoopAfter(classes, cls, fuel - 1)
  }

  /** Where `Validate` says the call diverges, the source's loop has not exited after any number of iterations. */
  lemma {:induction false} DivergingLoopNeverExits(classes: ClassTable, cls: string, current: Option<string>, fuel: nat)
    requires Validate(classes, cls, current) == Diverges
    ensures LoopAfter(classes, cls, fuel) == Looping
    decreases fuel
  {
    if fuel > 0 {
      DivergingLoopNeverExits(classes, cls, current, fuel - 1);
    }
  }

  /**
   * Otherwise (and for a class other than `Route` itself, which skips the
   * loop) the loop exits in its first iteration, by `break` exactly when the
   * class is accepted there.
   */
  lemma HaltingLoopExitsAtOnce(classes: ClassTable, cls: string, current: Option<string>, fuel: nat)
    requires cls != RouteClass
    requires Validate(classes, cls, current) != Diverges
    requires fuel >= 1
    ensures LoopAfter(classes, cls, fuel) == Exited(ParentOf(classes, cls) == RouteClass)
  {
  }

  /**
   * As written, `Route` is accepted, a direct child of `Route` is accepted, a
   * class with no parent is rejected with the message naming it (unless it is
   * already the default), and any other class makes the call diverge.
   */
  lemma ValidateCases(classes: ClassTable, cls: string, current: Option<string>)
    ensures Validate(classes, cls, current) == Accepted
      <==> cls == RouteClass || ParentOf(classes, cls) == RouteClass
           || (!TruthyString(ParentOf(classes, cls)) && current == Some(cls))
    ensures Validate(classes, cls, current) == Diverges
      <==> cls != RouteClass && TruthyString(ParentOf(classes, cls)) && ParentOf(classes, cls) != RouteClass
    ensures Validate(classes, cls, current).Rejected?
      ==> Validate(classes, cls, current).exception.message == RejectionMessage(cls)
           && !TruthyString(ParentOf(classes, cls)) && current != Some(cls)
  {
  }

  /** The `k`-th ancestor of `c` ("" once the chain of parents has ended). */
  function Ancestor(classes: ClassTable, c: string, k: nat): string
    decreases k
  {
    if k == 0 then c else Ancestor(classes, ParentOf(classes, c), k - 1)
  }

  /** The first ancestor is what `get_parent_class` returns. */
  lemma FirstAncestorIsParent(classes: ClassTable, c: string)
    ensures Ancestor(classes, c, 1) == ParentOf(classes, c)
  {
  }

  /** Walk up to `fuel` parents from `c`, looking for `Route`. */
  function Walk(classes: ClassTable, c: string, fuel: nat): bool
    decreases fuel
  {
    if fuel == 0 then false
    else
      var parent := ParentOf(classes, c);
      if !TruthyString(parent) then false
      else parent == RouteClass || Walk(classes, parent, fuel - 1)
  }

  /**
   * The corrected check: `Route` itself, or a class with `Route` among its
   * ancestors. The walk goes at most as many steps up as the table has
   * classes, which is enough (`RouteWithinTable`) and stops on a cyclic table.
   */
  function InheritsRoute(classes: ClassTable, cls: string): bool {
    cls == RouteClass || Walk(classes, cls, |classes|)
  }

  /** Once the chain of parents has ended it stays ended. */
  lemma {:induction false} EndedChainStaysEnded(classes: ClassTable, c: string, k: nat)
    ensures !TruthyString(c) ==> !TruthyString(Ancestor(classes, c, k))
    decreases k
  {
    if k > 0 {
      EndedChainStaysEnded(classes, ParentOf(classes, c), k - 1);
    }
  }

  /** Going up `a` and then `b` steps is going up `a + b` steps. */
  lemma {:induction false} AncestorAdd(classes: ClassTable, c: string, a: nat, b: nat)
    ensures Ancestor(classes, c, a + b) == Ancestor(classes, Ancestor(classes, c, a), b)
    decreases a
  {
    if a > 0 {
      AncestorAdd(classes, ParentOf(classes, c), a - 1, b);
    }
  }

  /** Every class on the way up to `Route` is in the table, since each has a parent. */
  lemma OnTheWayToRoute(classes: ClassTable, c: string, k: nat, j: nat)
    requires Ancestor(classes, c, k) == RouteClass
    requires j < k
    ensures Ancestor(classes, c, j) in classes
  {
    var here := Ancestor(classes, c, j);
    var next := Ancestor(classes, c, j + 1);
    AncestorAdd(classes, c, j, 1);
    assert next == Ancestor(classes, ParentOf(classes, here), 0) == ParentOf(classes, here);
    AncestorAdd(classes, c, j + 1, k - j - 1);
    EndedChainStaysEnded(classes, next, k - j - 1);
  }

  /** A sequence without repetitions has as many distinct elements as entries. */
  lemma {:induction false} DistinctCount(s: seq<string>)
    requires forall i, j :: 0 <= i < j < |s| ==> s[i] != s[j]
    ensures |set x | x in s| == |s|
    decreases |s|
  {
    if |s| > 0 {
      var init := s[..|s| - 1];
      DistinctCount(init);
      assert (set x | x in s) == (set x | x in init) + {s[|s| - 1]};
      assert s[|s| - 1] !in (set x | x in init);
    }
  }

  /** A subset has no more elements than its superset. */
  lemma {:induction false} SubsetCount(a: set<string>, b: set<string>)
    requires a <= b
    ensures |a| <= |b|
    decreases |a|
  {
    if a != {} {
      var x :| x in a;
      SubsetCount(a - {x}, b - {x});
    }
  }

  /**
   * If `Route` is an ancestor at all, it is one within as many steps as the
   * table has classes: a longer chain repeats a class, and cutting out the
   * repetition gives a shorter chain.
   */
  lemma {:induction false} RouteWithinTable(classes: ClassTable, c: string, k: nat)
    requires Ancestor(classes, c, k) == RouteClass
    ensures exists k' :: 0 <= k' <= |classes| && Ancestor(classes, c, k') == RouteClass
    decreases k
  {
    if k > |classes| {
      var s := seq(k, j requires 0 <= j < k => Ancestor(classes, c, j));
      forall j | 0 <= j < k ensures s[j] in classes.Keys {
        OnTheWayToRoute(classes, c, k, j);
      }
      var seen := set x | x in s;
      SubsetCount(seen, classes.Keys);
      assert exists i, j :: 0 <= i < j < k && s[i] == s[j] by {
        if forall i, j :: 0 <= i < j < k ==> s[i] != s[j] {
          DistinctCount(s);
        }
      }
      var i, j :| 0 <= i < j < k && s[i] == s[j];
      AncestorAdd(classes, c, j, k - j);
      AncestorAdd(classes, c, i, k - j);
      RouteWithinTable(classes, c, i + (k - j));
    } else {
      assert 0 <= k <= |classes|;
    }
  }

  /** The walk finds `Route` exactly when it is an ancestor at most `fuel` steps up. */
  lemma {:induction false} WalkFindsAncestor(classes: ClassTable, c: string, fuel: nat)
    ensures Walk(classes, c, fuel) <==> exists k :: 1 <= k <= fuel && Ancestor(classes, c, k) == RouteClass
    decreases fuel
  {
    if fuel > 0 {
      var parent := ParentOf(classes, c);
      assert Ancestor(classes, c, 1) == parent;
      WalkFindsAncestor(classes, parent, fuel - 1);
      if Walk(classes, c, fuel) {
        if parent != RouteClass {
          var k :| 1 <= k <= fuel - 1 && Ancestor(classes, parent, k) == RouteClass;
          assert Ancestor(classes, c, k + 1) == RouteClass;
        }
      } else {
        forall k | 1 <= k <= fuel ensures Ancestor(classes, c, k) != RouteClass {
          assert Ancestor(classes, c, k) == Ancestor(classes, parent, k - 1);
          EndedChainStaysEnded(classes, parent, k - 1);
        }
      }
    }
  }

  /** The corrected check accepts exactly `Route` and the classes with `Route` among their ancestors. */
  lemma InheritsRouteIffAncestor(classes: ClassTable, cls: string)
    ensures InheritsRoute(classes, cls) <==> exists k :: Ancestor(classes, cls, k) == RouteClass
  {
    WalkFindsAncestor(classes, cls, |classes|);
    if InheritsRoute(classes, cls) && cls == RouteClass {
      assert Ancestor(classes, cls, 0) == RouteClass;
    }
    if k :| Ancestor(classes, cls, k) == RouteClass {
      RouteWithinTable(classes, cls, k);
    }
  }

  /**
   * Wherever the source returns, and the class is not already the default,
   * it accepts exactly what the corrected check accepts.
   */
  lemma CorrectedAgreesWhereSourceReturns(classes: ClassTable, cls: string, current: Option<string>)
    requires Validate(classes, cls, current) != Diverges
    requires current != Some(cls)
    ensures Validate(classes, cls, current) == Accepted <==> InheritsRoute(classes, cls)
  {
    if cls != RouteClass {
      var parent := ParentOf(classes, cls);
      if TruthyString(parent) {
        assert cls in classes;
        assert |classes| >= 1 by {
          assert cls in classes.Keys;
          assert |classes.Keys| >= 1;
        }
      }
    }
  }

  /**
   * A default the as-written check can itself have set, starting from none
   * (the property's initial `null`): `Route` or a direct child of `Route`.
   */
  predicate SettableDefault(classes: ClassTable, current: Option<string>) {
    current.None? || current.value == RouteClass || ParentOf(classes, current.value) == RouteClass
  }

  /**
   * Accepting a class keeps the default settable, and an accepted class is a
   * truthy name, so `createRoute` builds with it from then on.
   */
  lemma AcceptedKeepsSettable(classes: ClassTable, cls: string, current: Option<string>)
    requires SettableDefault(classes, current)
    ensures Validate(classes, cls, current) == Accepted
      ==> SettableDefault(classes, Some(cls)) && TruthyString(cls) && RouteClassFor(Some(cls)) == cls
  {
  }

  /**
   * From any default the check can have set, wherever the source returns it
   * accepts exactly what the corrected check accepts; the two differ only
   * where the source diverges.
   */
  lemma CorrectedAgreesOnSettableDefaults(classes: ClassTable, cls: string, current: Option<string>)
    requires SettableDefault(classes, current)
    requires Validate(classes, cls, current) != Diverges
    ensures Validate(classes, cls, current) == Accepted <==> InheritsRoute(classes, cls)
  {
    assert Validate(classes, cls, None) == Validate(classes, cls, current);
    CorrectedAgreesWhereSourceReturns(classes, cls, None);
  }

  /**
   * The discrepancy: a class whose parent's parent is `Route` inherits
   * `Route`, yet the source never returns for it.
   */
  lemma GrandchildOfRouteDiverges(fuel: nat)
    ensures var classes := map["App\\ApiRoute" := "App\\BaseRoute", "App\\BaseRoute" := RouteClass];
      && Validate(classes, "App\\ApiRoute", None) == Diverges
      && LoopAfter(classes, "App\\ApiRoute", fuel) == Looping
      && InheritsRoute(classes, "App\\ApiRoute")
  {
    var classes := map["App\\ApiRoute" := "App\\BaseRoute", "App\\BaseRoute" := RouteClass];
    DivergingLoopNeverExits(classes, "App\\ApiRoute", None, fuel);
    assert |classes| == 2 by {
      assert classes.Keys == {"App\\ApiRoute", "App\\BaseRoute"};
    }
    assert Walk(classes, "App\\BaseRoute", 1);
  }
}
