/** Nearest-scope rules of src/Lox/Environment.cs, stated on the arena:
    what `Get` sees after `Set` and `Define`, what they leave alone, and
    what a freshly created scope sees. */
module EnvironmentProperties {
  import opened Wrappers
  import opened Values
  import opened Environment

  /** Assigning never re-links scopes. */
  lemma AssignedLinks(frames: seq<Frame>, k: nat, name: string, value: Value)
    ensures Links(Assigned(frames, k, name, value)) == Links(frames)
  {
    var after := Assigned(frames, k, name, value);
    assert forall i :: 0 <= i < |frames| ==> Links(after)[i] == Links(frames)[i];
  }

  /** Links are all a scope's acyclicity depends on. */
  lemma LinksAcyclic(a: seq<Frame>, b: seq<Frame>)
    requires Links(a) == Links(b) && Acyclic(a)
    ensures Acyclic(b)
  {
    assert forall i :: 0 <= i < |b| ==> b[i].enclosing == Links(b)[i] == Links(a)[i] == a[i].enclosing;
  }

  /** `Get` after `Set`: the nearest binding is still the nearest one and
      now holds the new value. */
  lemma {:induction false} LookupAfterAssign(frames: seq<Frame>, scope: nat, name: string, value: Value)
    requires Nearest(frames, scope, name).Some?
    ensures var k := Nearest(frames, scope, name).value;
      Nearest(Assigned(frames, k, name, value), scope, name) == Some(k) &&
      Lookup(Assigned(frames, k, name, value), scope, name) == Some(value)
    decreases scope
  {
    if name !in frames[scope].values {
      LookupAfterAssign(frames, frames[scope].enclosing.value, name, value);
    }
  }

  /** `Get` after `Define` in the same scope: the local binding is the
      nearest one and holds the new value. */
  lemma LookupAfterDefine(frames: seq<Frame>, scope: nat, name: string, value: Value)
    requires scope < |frames|
    ensures Lookup(Assigned(frames, scope, name, value), scope, name) == Some(value)
  {
  }

  /** Assigning to one name leaves every other name as it was, from every
      scope. */
  lemma {:induction false} AssignKeepsOtherNames(frames: seq<Frame>, k: nat, name: string, value: Value, scope: nat, other: string)
    requires other != name
    ensures Lookup(Assigned(frames, k, name, value), scope, other) == Lookup(frames, scope, other)
    decreases scope
  {
    var after := Assigned(frames, k, name, value);
    if scope < |frames| && other !in frames[scope].values && frames[scope].enclosing.Some? && frames[scope].enclosing.value < scope {
      assert after[scope].enclosing == frames[scope].enclosing;
      AssignKeepsOtherNames(frames, k, name, value, frames[scope].enclosing.value, other);
    }
  }

  /** Assigning in a scope newer than `scope` changes nothing `scope`
      sees: the enclosing scopes of a block never see its declarations, and
      `Set` never disturbs a shadowed outer binding. */
  lemma {:induction false} AssignInvisible(frames: seq<Frame>, k: nat, name: string, value: Value, scope: nat, other: string)
    requires scope < k
    ensures Nearest(Assigned(frames, k, name, value), scope, other) == Nearest(frames, scope, other)
    ensures Lookup(Assigned(frames, k, name, value), scope, other) == Lookup(frames, scope, other)
    decreases scope
  {
    var after := Assigned(frames, k, name, value);
    if scope < |frames| {
      assert after[scope] == frames[scope];
      if other !in frames[scope].values && frames[scope].enclosing.Some? && frames[scope].enclosing.value < scope {
        AssignInvisible(frames, k, name, value, frames[scope].enclosing.value, other);
      }
    }
  }

  /** `Set` updates only the nearest binding: seen from any scope older
      than it, such as the scope of a shadowed outer binding, nothing
      changes. */
  lemma SetKeepsShadowed(frames: seq<Frame>, scope: nat, name: string, value: Value, outer: nat, other: string)
    requires Nearest(frames, scope, name).Some? && outer < Nearest(frames, scope, name).value
    ensures Lookup(Assigned(frames, Nearest(frames, scope, name).value, name, value), outer, other) == Lookup(frames, outer, other)
  {
    AssignInvisible(frames, Nearest(frames, scope, name).value, name, value, outer, other);
  }

  /** Creating a scope changes nothing that the older scopes see. */
  lemma {:induction false} LookupExtended(frames: seq<Frame>, f: Frame, scope: nat, name: string)
    requires scope < |frames|
    ensures Nearest(frames + [f], scope, name) == Nearest(frames, scope, name)
    ensures Lookup(frames + [f], scope, name) == Lookup(frames, scope, name)
    decreases scope
  {
    assert (frames + [f])[scope] == frames[scope];
    if name !in frames[scope].values && frames[scope].enclosing.Some? && frames[scope].enclosing.value < scope {
      LookupExtended(frames, f, frames[scope].enclosing.value, name);
    }
  }

  /** A fresh scope sees exactly what its enclosing scope sees. */
  lemma LookupFreshScope(frames: seq<Frame>, enclosing: nat, name: string)
    requires enclosing < |frames|
    ensures Lookup(frames + [Frame(map[], Some(enclosing))], |frames|, name) == Lookup(frames, enclosing, name)
  {
    LookupExtended(frames, Frame(map[], Some(enclosing)), enclosing, name);
  }
}
