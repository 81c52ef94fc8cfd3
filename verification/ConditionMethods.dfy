/** updateConditions, onError and onSuccess on the object graph: the conditions of a deep copy
    are changed through pointers found in one pass over the list. Each is proved to do what
    Conditions.dfy says. */
module ConditionMethods {
  import opened ApiTypes
  import opened Conditions
  import opened Objects
  import opened ReadMethods
  import opened ReadPath

  ghost predicate NonNull(cs: seq<ConditionNode?>) {
    forall i :: 0 <= i < |cs| ==> cs[i] != null
  }

  ghost function Values(cs: seq<ConditionNode?>): seq<Condition>
    requires NonNull(cs)
    reads cs
  {
    seq(|cs|, i requires 0 <= i < |cs| reads cs => cs[i].Value())
  }

  lemma ValuesOfConditions(t: StatusNode)
    requires NonNull(Elements(t.conditions))
    ensures NoNil(t.Value().conditions) && ConditionsOf(t.Value()) == Values(Elements(t.conditions))
  {
  }

  /** c is the last condition of its kind in cs, whose values are vs, or null when there is none. */
  ghost predicate IsLast(cs: seq<ConditionNode?>, vs: seq<Condition>, kind: ConditionType, c: ConditionNode?)
    requires |cs| == |vs|
  {
    var at := LastOf(vs, kind);
    c == if at.Some? then cs[at.value] else null
  }

  method FindConditions(t: StatusNode)
    returns (terminal: ConditionNode?, recoverable: ConditionNode?, synced: ConditionNode?)
    requires NonNull(Elements(t.conditions))
    ensures IsLast(Elements(t.conditions), Values(Elements(t.conditions)), Terminal, terminal)
    ensures IsLast(Elements(t.conditions), Values(Elements(t.conditions)), Recoverable, recoverable)
    ensures IsLast(Elements(t.conditions), Values(Elements(t.conditions)), ResourceSynced, synced)
    ensures var vs := Values(Elements(t.conditions));
            && (terminal != null <==> Has(vs, Terminal)) && (recoverable != null <==> Has(vs, Recoverable))
            && (synced != null <==> Has(vs, ResourceSynced))
    ensures terminal == null || terminal in Elements(t.conditions)
    ensures recoverable == null || recoverable in Elements(t.conditions)
  {
    terminal, recoverable, synced := null, null, null;
    var cs := Elements(t.conditions);
    for i := 0 to |cs|
      invariant IsLast(cs[..i], Values(cs[..i]), Terminal, terminal)
      invariant IsLast(cs[..i], Values(cs[..i]), Recoverable, recoverable)
      invariant IsLast(cs[..i], Values(cs[..i]), ResourceSynced, synced)
    {
      var condition := cs[i];
      assert Values(cs[..i + 1])[..i] == Values(cs[..i]);
      if condition.kind == Terminal {
        terminal := condition;
      }
      if condition.kind == Recoverable {
        recoverable := condition;
      }
      if condition.kind == ResourceSynced {
        synced := condition;
      }
    }
    assert cs[..|cs|] == cs;
  }

  /** Each condition of the graph is one of was with no objects but new ones added, or is new. */
  twostate lemma GraphGrows(was: seq<ConditionNode?>, new cs: seq<ConditionNode?>)
    requires forall i :: 0 <= i < |cs| && cs[i] != null ==>
               || (forall o :: o in cs[i].Graph() ==> fresh(o))
               || (i < |was| && was[i] != null
                   && forall o :: o in cs[i].Graph() ==> o in old(was[i].Graph()) || fresh(o))
    ensures forall o :: o in ConditionsGraph(cs) ==> o in old(ConditionsGraph(was)) || fresh(o)
  {
    forall o | o in ConditionsGraph(cs)
      ensures o in old(ConditionsGraph(was)) || fresh(o)
    {
      var i :| 0 <= i < |cs| && cs[i] != null && o in cs[i].Graph();
    }
  }

  /** The writes through a pointer to a condition. */
  method SetCondition(c: ConditionNode, status: ConditionStatus, message: Cell?<string>)
    modifies c
    ensures c.Value() == old(c.Value()).(status := status, message := ValueOf(message))
    ensures c.Graph() <= old(c.Graph()) + NodeOf(message)
  {
    c.status := status;
    c.message := message;
  }

  /** Appends a condition unless there is one, and sets it True. */
  method RaiseNode(t: StatusNode, kind: ConditionType, message: string, found: ConditionNode?)
    returns (c: ConditionNode?)
    requires t.conditions.Some? && NonNull(t.conditions.value) && Unshared(t.conditions.value)
    requires IsLast(t.conditions.value, Values(t.conditions.value), kind, found)
    modifies t`conditions, found
    ensures c != null && t.conditions.Some? && NonNull(t.conditions.value) && Unshared(t.conditions.value)
    ensures Values(t.conditions.value) == Raise(old(Values(t.conditions.value)), kind, message)
    ensures forall o :: o in t.conditions.value ==> o in old(t.conditions.value) || fresh(o)
    ensures var g := old(ConditionsGraph(t.conditions.value));
            forall o :: o in ConditionsGraph(t.conditions.value) ==> o in g || fresh(o)
  {
    hide ConditionsGraph;
    ghost var was, before := t.conditions.value, Values(t.conditions.value);
    c := found;
    if c == null {
      c := new ConditionNode(kind, Unset, null, null);
      t.conditions := Some(t.conditions.value + [c]);
    }
    assert forall o :: o in c.Graph() ==> fresh(o) || (found != null && o in old(found.Graph()));
    var text := new Cell(message);
    SetCondition(c, True, text);
    ghost var after := Raise(before, kind, message);
    forall i | 0 <= i < |after|
      ensures Values(t.conditions.value)[i] == after[i]
    {
    }
    GraphGrows(was, t.conditions.value);
  }

  method LowerNode(t: StatusNode, ghost kind: ConditionType, found: ConditionNode?)
    requires t.conditions.Some? && NonNull(t.conditions.value) && Unshared(t.conditions.value)
    requires IsLast(t.conditions.value, Values(t.conditions.value), kind, found)
    modifies found
    ensures Values(t.conditions.value) == Lower(old(Values(t.conditions.value)), kind)
    ensures forall k :: LastOf(Values(t.conditions.value), k) == old(LastOf(Values(t.conditions.value), k))
    ensures var g := old(ConditionsGraph(t.conditions.value));
            forall o :: o in ConditionsGraph(t.conditions.value) ==> o in g || fresh(o)
  {
    hide ConditionsGraph;
    ghost var was, before := t.conditions.value, Values(t.conditions.value);
    if found != null {
      SetCondition(found, False, null);
    }
    ghost var after := Lower(before, kind);
    forall i | 0 <= i < |after|
      ensures Values(t.conditions.value)[i] == after[i]
    {
    }
    LowerKeepsKinds(before, kind);
    GraphGrows(was, t.conditions.value);
  }

  lemma StillLast(cs: seq<ConditionNode?>, vs: seq<Condition>, next: seq<Condition>, kind: ConditionType,
                  c: ConditionNode?)
    requires |cs| == |vs| == |next| && LastOf(next, kind) == LastOf(vs, kind) && IsLast(cs, vs, kind, c)
    ensures IsLast(cs, next, kind, c)
  {
  }

  method UpdateNodes(t: StatusNode, e: Option<Fault>) returns (updated: bool)
    requires t.conditions.Some? && NonNull(t.conditions.value) && Unshared(t.conditions.value)
    modifies t`conditions, t.conditions.value
    ensures t.conditions.Some? && NonNull(t.conditions.value)
    ensures Values(t.conditions.value) == Next(old(Values(t.conditions.value)), e)
    ensures updated == Updated(old(Values(t.conditions.value)), e)
    ensures forall o :: o in t.conditions.value ==> o in old(t.conditions.value) || fresh(o)
    ensures var g := old(ConditionsGraph(t.conditions.value));
            forall o :: o in ConditionsGraph(t.conditions.value) ==> o in g || fresh(o)
  {
    hide ConditionsGraph, Raise, Lower, IsLast, Has;
    ghost var before := Values(t.conditions.value);
    var terminal, recoverable, synced := FindConditions(t);
    if IsTerminal(e) {
      terminal := RaiseNode(t, Terminal, Message(e.value), terminal);
    } else {
      LowerNode(t, Terminal, terminal);
      StillLast(t.conditions.value, before, Values(t.conditions.value), Recoverable, recoverable);
      if e.Some? {
        recoverable := RaiseNode(t, Recoverable, Message(e.value), recoverable);
      } else {
        LowerNode(t, Recoverable, recoverable);
      }
    }
    return terminal != null || recoverable != null || synced != null;
  }

  lemma NonNullIffNoNil(t: StatusNode)
    ensures NonNull(Elements(t.conditions)) <==> NoNil(t.Value().conditions)
  {
    var vs := ConditionValues(Elements(t.conditions));
    assert forall i :: 0 <= i < |vs| ==> (vs[i].Some? <==> Elements(t.conditions)[i] != null);
    if NoNil(t.Value().conditions) {
      assert t.conditions.Some? ==> Elements(t.Value().conditions) == vs;
      assert forall i :: 0 <= i < |vs| ==> vs[i].Some?;
    }
  }

  method UpdateStatus(t: StatusNode, e: Option<Fault>) returns (updated: bool)
    requires t.conditions.Some? && NonNull(t.conditions.value) && Unshared(t.conditions.value)
    modifies t`conditions, t.conditions.value
    ensures var v := old(t.Value());
            NoNil(v.conditions) && t.Value() == WithConditions(v, Next(ConditionsOf(v), e))
            && updated == Updated(ConditionsOf(v), e)
    ensures NonNull(Elements(t.conditions))
    ensures forall o :: o in t.Graph() ==> o in old(t.Graph()) || fresh(o)
  {
    hide Next, Updated, ConditionsGraph, MetadataNode.Value, MetadataNode.Graph;
    hide ConditionNode.Value, ConditionNode.Graph;
    ValuesOfConditions(t);
    ghost var v := t.Value();
    updated := UpdateNodes(t, e);
    ghost var next := WithConditions(v, Next(ConditionsOf(v), e));
    assert ConditionValues(t.conditions.value) == next.conditions.value;
  }

  lemma DefaultsKeepConditions(id: Identity, s: Status)
    requires NoNil(s.conditions)
    ensures NoNil(WithDefaults(id, s).conditions) && ConditionsOf(WithDefaults(id, s)) == ConditionsOf(s)
  {
  }

  lemma ConditionsInGraph(t: StatusNode)
    ensures forall i :: 0 <= i < |Elements(t.conditions)| && Elements(t.conditions)[i] != null ==>
              Elements(t.conditions)[i] in t.Graph()
  {
    var cs := Elements(t.conditions);
    forall i | 0 <= i < |cs| && cs[i] != null
      ensures cs[i] in ConditionsGraph(cs)
    {
      InOwnGraph(cs[i]);
    }
  }

  lemma ParentsInGraph(r: CapacityProviderNode)
    ensures r.status.Graph() <= r.Graph() && r.Value().status == r.status.Value()
  {
    hide SpecNode.Value, SpecNode.Graph, StatusNode.Value, StatusNode.Graph;
  }

  /** A copy whose conditions are objects of its own. */
  method CopyOf(r: CapacityProviderNode) returns (ko: CapacityProviderNode)
    requires NonNull(Elements(r.status.conditions))
    ensures ko.Value() == old(r.Value()) && fresh(ko.Graph())
    ensures var cs := Elements(ko.status.conditions);
            NonNull(cs) && Unshared(cs) && forall i :: 0 <= i < |cs| ==> fresh(cs[i])
  {
    hide CapacityProviderNode.Value, CapacityProviderNode.Graph, StatusNode.Value, StatusNode.Graph;
    NonNullIffNoNilOf(r);
    ko := r.DeepCopy();
    NonNullIffNoNilOf(ko);
    ParentsInGraph(ko);
    ConditionsInGraph(ko.status);
  }

  method DefaultedCopy(rm: ManagerNode, r: CapacityProviderNode) returns (ko: CapacityProviderNode)
    requires NonNull(Elements(r.status.conditions))
    ensures var v := old(r.Value()); ko.Value() == v.(status := WithDefaults(rm.Id(), v.status))
    ensures NewBut(rm, ko) && fresh(ko.status)
    ensures ko.status.conditions.Some? && NonNull(ko.status.conditions.value) && Unshared(ko.status.conditions.value)
    ensures var cs := ko.status.conditions.value; forall i :: 0 <= i < |cs| ==> fresh(cs[i])
  {
    hide CapacityProviderNode.Value, CapacityProviderNode.Graph, WithDefaults;
    ko := CopyOf(r);
    Members(ko);
    SetDefaults(rm, ko);
  }

  /** The update is made on a copy that shares no object with r, and only given back when there
      is a condition to report. */
  method UpdateResource(rm: ManagerNode, r: CapacityProviderNode, e: Option<Fault>) returns (out: CapacityProviderNode?)
    requires NonNull(Elements(r.status.conditions))
    ensures out != null ==> NewBut(rm, out) && NonNull(Elements(out.status.conditions))
    ensures NoNil(old(r.Value()).status.conditions)
    ensures UpdateConditions(rm.Id(), old(r.Value()), e) == if out == null then None else Some(out.Value())
    ensures r.Value() == old(r.Value())
  {
    hide SpecNode.Value, SpecNode.Graph, StatusNode.Value, StatusNode.Graph, WithDefaults, Next, Updated;
    NonNullIffNoNil(r.status);
    DefaultsKeepConditions(rm.Id(), r.status.Value());
    var ko := DefaultedCopy(rm, r);
    var updated := UpdateStatus(ko.status, e);
    SameStatus(r.status);
    if updated {
      return ko;
    }
    return null;
  }

  /** The loop over the conditions of a resource. */
  method HasTerminalCondition(r: CapacityProviderNode) returns (yes: bool)
    requires NonNull(Elements(r.status.conditions))
    ensures NoNil(r.Value().status.conditions) && (yes <==> HasTerminal(r.Value()))
  {
    hide SpecNode.Value;
    ValuesOfConditions(r.status);
    var cs := Elements(r.status.conditions);
    ghost var vs := ConditionsOf(r.Value().status);
    for i := 0 to |cs|
      invariant forall j :: 0 <= j < i ==> !(vs[j].kind == Terminal && vs[j].status == True)
    {
      assert vs[i] == cs[i].Value();
      if cs[i].kind == Terminal && cs[i].status == True {
        return true;
      }
    }
    return false;
  }

  /** onError; a nil resource is given back with the error. */
  method HandleError(rm: ManagerNode, r: CapacityProviderNode?, e: Option<Fault>)
    returns (out: CapacityProviderNode?, raised: Raised)
    requires r != null ==> NonNull(Elements(r.status.conditions))
    ensures r == null ==> (None, raised) == OnError(rm.Id(), None, e)
    ensures r == null <==> out == null
    ensures r != null ==>
              var v := old(r.Value());
              NoNil(v.status.conditions) && (Some(out.Value()), raised) == OnError(rm.Id(), Some(v), e)
    ensures out == null || out == r || NewBut(rm, out)
  {
    hide CapacityProviderNode.Value, CapacityProviderNode.Graph, UpdateConditions, HasTerminal;
    if r == null {
      return null, Given(e);
    }
    NonNullIffNoNilOf(r);
    var r1 := UpdateResource(rm, r, e);
    if r1 == null {
      return r, Given(e);
    }
    var terminal := HasTerminalCondition(r1);
    if terminal {
      return r1, AckTerminal;
    }
    return r1, Given(e);
  }

  lemma NonNullIffNoNilOf(r: CapacityProviderNode)
    ensures NonNull(Elements(r.status.conditions)) <==> NoNil(r.Value().status.conditions)
  {
    NonNullIffNoNil(r.status);
  }

  /** onSuccess; a nil resource is given back. */
  method HandleSuccess(rm: ManagerNode, r: CapacityProviderNode?) returns (out: CapacityProviderNode?)
    requires r != null ==> NonNull(Elements(r.status.conditions))
    ensures r == null <==> out == null
    ensures r != null ==>
              var v := old(r.Value());
              NoNil(v.status.conditions) && Some(out.Value()) == OnSuccess(rm.Id(), Some(v))
    ensures out == null || out == r || NewBut(rm, out)
  {
    hide CapacityProviderNode.Value, CapacityProviderNode.Graph, UpdateConditions;
    if r == null {
      return null;
    }
    NonNullIffNoNilOf(r);
    var r1 := UpdateResource(rm, r, None);
    if r1 == null {
      return r;
    }
    return r1;
  }
}
