/** The condition state machine of pkg/resource/capacity_provider: updateConditions (sdk.go),
    onError and onSuccess (manager.go), on values and over runs of any length.
    ConditionMethods.dfy does the update on the condition objects. */
module Conditions {
  import opened ApiTypes
  import opened ReadPath

  /** What errors.As finds of an API error in an error. */
  datatype ApiFault = ApiFault(code: string, text: string)

  /** An error: its text, the API error and the TerminalError errors.As finds in it, and whether
      it is one of the two sentinel errors for secrets. */
  datatype Fault = Fault(text: string, api: Option<ApiFault>, terminal: bool, secret: bool)

  predicate TerminalApi(f: Fault) {
    f.api.Some? && f.api.value.code == "InvalidParameterException"
  }

  predicate IsTerminal(e: Option<Fault>) {
    e.Some? && (TerminalApi(e.value) || e.value.secret || e.value.terminal)
  }

  /** The message of a condition for an error. */
  function Message(f: Fault): string {
    if IsTerminal(Some(f)) && (f.secret || f.terminal) then f.text
    else if f.api.Some? then f.api.value.text
    else f.text
  }

  /** The position of the last condition of a kind, which is the one that is updated. */
  function LastOf(cs: seq<Condition>, kind: ConditionType): (at: Option<nat>)
    ensures at.None? <==> forall i :: 0 <= i < |cs| ==> cs[i].kind != kind
    ensures at.Some? ==> at.value < |cs| && cs[at.value].kind == kind
    ensures at.Some? ==> forall i :: at.value < i < |cs| ==> cs[i].kind != kind
  {
    if cs == [] then None
    else if cs[|cs| - 1].kind == kind then Some(|cs| - 1)
    else
      var init := cs[..|cs| - 1];
      assert forall i :: 0 <= i < |init| ==> init[i] == cs[i];
      LastOf(init, kind)
  }

  /** Sets the last condition of a kind, or appends one. */
  function Raise(cs: seq<Condition>, kind: ConditionType, message: string): seq<Condition> {
    var at := LastOf(cs, kind);
    if at.Some? then cs[at.value := cs[at.value].(status := True, message := Some(message))]
    else cs + [Condition(kind, True, Some(message), None)]
  }

  /** Clears the last condition of a kind, if there is one. */
  function Lower(cs: seq<Condition>, kind: ConditionType): seq<Condition> {
    var at := LastOf(cs, kind);
    if at.Some? then cs[at.value := cs[at.value].(status := False, message := None)] else cs
  }

  /** The conditions after updateConditions. */
  function Next(cs: seq<Condition>, e: Option<Fault>): seq<Condition> {
    if IsTerminal(e) then Raise(cs, Terminal, Message(e.value))
    else
      var lowered := Lower(cs, Terminal);
      if e.Some? then Raise(lowered, Recoverable, Message(e.value)) else Lower(lowered, Recoverable)
  }

  predicate Has(cs: seq<Condition>, kind: ConditionType) {
    LastOf(cs, kind).Some?
  }

  /** Whether there is any condition to report after the update. */
  predicate Updated(cs: seq<Condition>, e: Option<Fault>) {
    e.Some? || Has(cs, Terminal) || Has(cs, Recoverable) || Has(cs, ResourceSynced)
  }

  /** The conditions of a status; a nil element is dereferenced. */
  function ConditionsOf(s: Status): seq<Condition>
    requires NoNil(s.conditions)
  {
    seq(|Elements(s.conditions)|, i requires 0 <= i < |Elements(s.conditions)| => Elements(s.conditions)[i].value)
  }

  function WithConditions(s: Status, cs: seq<Condition>): Status {
    s.(conditions := Some(seq(|cs|, i requires 0 <= i < |cs| => Some(cs[i]))))
  }

  /** updateConditions: the updated copy, or None where the source returns nil, false. */
  function UpdateConditions(id: Identity, r: CapacityProvider, e: Option<Fault>): Option<CapacityProvider>
    requires NoNil(r.status.conditions)
  {
    var cs := ConditionsOf(r.status);
    if Updated(cs, e) then Some(r.(status := WithConditions(WithDefaults(id, r.status), Next(cs, e)))) else None
  }

  datatype Raised = Nothing | AsGiven(error: Fault) | AckTerminal

  function Given(e: Option<Fault>): Raised {
    if e.Some? then AsGiven(e.value) else Nothing
  }

  predicate HasTerminal(r: CapacityProvider)
    requires NoNil(r.status.conditions)
  {
    HasTrue(ConditionsOf(r.status), Terminal)
  }

  /** onError. */
  function OnError(id: Identity, r: Option<CapacityProvider>, e: Option<Fault>): (Option<CapacityProvider>, Raised)
    requires r.Some? ==> NoNil(r.value.status.conditions)
  {
    if r.None? then (None, Given(e))
    else
      var r1 := UpdateConditions(id, r.value, e);
      if r1.None? then (r, Given(e))
      else if HasTerminal(r1.value) then (r1, AckTerminal)
      else (r1, Given(e))
  }

  /** onSuccess. */
  function OnSuccess(id: Identity, r: Option<CapacityProvider>): Option<CapacityProvider>
    requires r.Some? ==> NoNil(r.value.status.conditions)
  {
    if r.None? then None
    else
      var r1 := UpdateConditions(id, r.value, None);
      if r1.None? then r else r1
  }

  // ---- one update ----

  ghost predicate AtMostOne(cs: seq<Condition>, kind: ConditionType) {
    forall i, j :: 0 <= i < j < |cs| ==> !(cs[i].kind == kind && cs[j].kind == kind)
  }

  predicate IsOurs(kind: ConditionType) {
    kind == Terminal || kind == Recoverable
  }

  /** next keeps every condition of cs in its place, with its type and reason, and those that are
      not Terminal or Recoverable untouched; what it adds are Terminal or Recoverable conditions. */
  ghost predicate Extends(cs: seq<Condition>, next: seq<Condition>) {
    && |cs| <= |next|
    && (forall i :: 0 <= i < |cs| ==>
          && next[i].kind == cs[i].kind && next[i].reason == cs[i].reason
          && (!IsOurs(cs[i].kind) ==> next[i] == cs[i]))
    && (forall i :: |cs| <= i < |next| ==> IsOurs(next[i].kind) && next[i].reason.None?)
  }

  /** How many of the two conditions are still to be added. */
  function Missing(cs: seq<Condition>): nat {
    (if Has(cs, Terminal) then 0 else 1) + (if Has(cs, Recoverable) then 0 else 1)
  }

  lemma RaiseMeans(cs: seq<Condition>, kind: ConditionType, message: string)
    requires IsOurs(kind)
    ensures var next := Raise(cs, kind, message);
            && Extends(cs, next)
            && (forall k :: AtMostOne(cs, k) ==> AtMostOne(next, k))
            && HasTrue(next, kind)
            && (forall k :: k != kind ==> (HasTrue(next, k) <==> HasTrue(cs, k)))
            && (forall k :: k != kind ==> (Has(next, k) <==> Has(cs, k)))
            && Has(next, kind)
            && |next| == |cs| + if Has(cs, kind) then 0 else 1
  {
    var next := Raise(cs, kind, message);
    var at := LastOf(cs, kind);
    assert next[if at.Some? then at.value else |cs|].status == True;
    KindsKept(cs, next);
  }

  lemma LowerMeans(cs: seq<Condition>, kind: ConditionType)
    requires IsOurs(kind)
    ensures var next := Lower(cs, kind);
            && Extends(cs, next)
            && |next| == |cs|
            && (forall k :: AtMostOne(cs, k) ==> AtMostOne(next, k))
            && (AtMostOne(cs, kind) ==> !HasTrue(next, kind))
            && (forall k :: k != kind ==> (HasTrue(next, k) <==> HasTrue(cs, k)))
            && (forall k :: Has(next, k) <==> Has(cs, k))
  {
  }

  lemma KindsKept(cs: seq<Condition>, next: seq<Condition>)
    requires Extends(cs, next)
    ensures forall k :: Has(cs, k) ==> Has(next, k)
    ensures forall k :: Has(next, k) ==> Has(cs, k) || exists i :: |cs| <= i < |next| && next[i].kind == k
  {
  }

  /** One update: what is kept, what is added, and which of the two conditions are True after it.
      A terminal error leaves a Recoverable condition as it was, so both can be True. */
  lemma NextMeans(cs: seq<Condition>, e: Option<Fault>)
    ensures var next := Next(cs, e);
            && Extends(cs, next)
            && Missing(next) + |next| == Missing(cs) + |cs|
            && (AtMostOne(cs, Terminal) ==> AtMostOne(next, Terminal))
            && (AtMostOne(cs, Recoverable) ==> AtMostOne(next, Recoverable))
            && (IsTerminal(e) ==> HasTrue(next, Terminal) && (HasTrue(next, Recoverable) <==> HasTrue(cs, Recoverable)))
            && (!IsTerminal(e) && e.Some? ==> HasTrue(next, Recoverable))
            && (!IsTerminal(e) && AtMostOne(cs, Terminal) ==> !HasTrue(next, Terminal))
            && (e.None? && AtMostOne(cs, Recoverable) ==> !HasTrue(next, Recoverable))
  {
    hide Raise, Lower, Extends, HasTrue, AtMostOne, LastOf;
    if IsTerminal(e) {
      RaiseMeans(cs, Terminal, Message(e.value));
    } else {
      var lowered := Lower(cs, Terminal);
      LowerMeans(cs, Terminal);
      if e.Some? {
        RaiseMeans(lowered, Recoverable, Message(e.value));
      } else {
        LowerMeans(lowered, Recoverable);
      }
      ExtendsIsTransitive(cs, lowered, Next(cs, e));
    }
  }

  /** The error ends the retries: one of the two secret sentinels, a TerminalError, or the API
      error for an invalid parameter. */
  predicate EndsRetries(f: Fault) {
    f.secret || f.terminal || (f.api.Some? && f.api.value.code == "InvalidParameterException")
  }

  /** text is reported for f: its own text if it ends the retries by itself or has no API error
      in it, and that API error's text otherwise. */
  predicate IsReportOf(f: Fault, text: Option<string>) {
    text == Some(if f.secret || f.terminal || f.api.None? then f.text else f.api.value.text)
  }

  /** No later condition is of the same type as the i-th. */
  predicate IsLatest(cs: seq<Condition>, i: int) {
    0 <= i < |cs| && forall j :: i < j < |cs| ==> cs[j].kind != cs[i].kind
  }

  ghost predicate IsLowered(was: Condition, c: Condition) {
    c.kind == was.kind && c.reason == was.reason && c.status == False && c.message.None?
  }

  ghost predicate IsRaised(f: Fault, was: Condition, c: Condition) {
    c.kind == was.kind && c.reason == was.reason && c.status == True && IsReportOf(f, c.message)
  }

  /** The type of the condition that carries an error. */
  function CarrierOf(f: Fault): ConditionType {
    if EndsRetries(f) then Terminal else Recoverable
  }

  lemma FaultMeans(f: Fault)
    ensures IsTerminal(Some(f)) <==> EndsRetries(f)
    ensures IsReportOf(f, Some(Message(f)))
  {
  }

  lemma LatestIsLast(cs: seq<Condition>, i: int)
    requires 0 <= i < |cs|
    ensures IsLatest(cs, i) <==> LastOf(cs, cs[i].kind) == Some(i)
  {
  }

  /** One update, condition by condition: an error raises the last condition of its type; the last
      Terminal condition is lowered unless the error ends the retries, and the last Recoverable one
      only by a success; all others stay as they were. */
  lemma NextAt(cs: seq<Condition>, e: Option<Fault>, i: int)
    requires 0 <= i < |cs|
    ensures var next := Next(cs, e);
            && i < |next|
            && (IsLatest(cs, i) && e.Some? && cs[i].kind == CarrierOf(e.value) ==> IsRaised(e.value, cs[i], next[i]))
            && (IsLatest(cs, i) && cs[i].kind == Terminal && !(e.Some? && EndsRetries(e.value)) ==>
                  IsLowered(cs[i], next[i]))
            && (IsLatest(cs, i) && cs[i].kind == Recoverable && e.None? ==> IsLowered(cs[i], next[i]))
            && (!IsLatest(cs, i) || !IsOurs(cs[i].kind) ==> next[i] == cs[i])
            && (e.Some? && EndsRetries(e.value) && cs[i].kind == Recoverable ==> next[i] == cs[i])
  {
    hide Message, IsReportOf, EndsRetries, IsTerminal, LastOf;
    if e.Some? {
      FaultMeans(e.value);
    } else {
      assert !IsTerminal(e) by {
        SuccessIsNotTerminal();
      }
    }
    LatestIsLast(cs, i);
    LowerKeepsKinds(cs, Terminal);
    hide IsLatest;
  }

  lemma SuccessIsNotTerminal()
    ensures !IsTerminal(None)
  {
  }

  /** And what is appended: the condition of the error's type if there was none. */
  lemma NextAppends(cs: seq<Condition>, e: Option<Fault>)
    ensures var next := Next(cs, e);
            if e.Some? && forall i :: 0 <= i < |cs| ==> cs[i].kind != CarrierOf(e.value) then
              |next| == |cs| + 1
              && IsRaised(e.value, Condition(CarrierOf(e.value), Unset, None, None), next[|cs|])
            else |next| == |cs|
  {
    hide Message, IsReportOf, EndsRetries, IsTerminal;
    if e.Some? {
      FaultMeans(e.value);
    } else {
      SuccessIsNotTerminal();
    }
    LowerKeepsKinds(cs, Terminal);
  }

  lemma LowerKeepsKinds(cs: seq<Condition>, lowered: ConditionType)
    ensures |Lower(cs, lowered)| == |cs|
    ensures forall kind :: LastOf(Lower(cs, lowered), kind) == LastOf(cs, kind)
  {
    var next := Lower(cs, lowered);
    assert forall i :: 0 <= i < |cs| ==> next[i].kind == cs[i].kind;
  }

  /** Where no condition is reported, none is changed either. */
  lemma NotUpdatedMeans(cs: seq<Condition>, e: Option<Fault>)
    requires !Updated(cs, e)
    ensures Next(cs, e) == cs
  {
  }

  /** The condition that carries the error, with its text. */
  lemma ErrorIsReported(cs: seq<Condition>, f: Fault)
    ensures exists i :: 0 <= i < |Next(cs, Some(f))|
              && Next(cs, Some(f))[i].kind == (if EndsRetries(f) then Terminal else Recoverable)
              && Next(cs, Some(f))[i].status == True
              && IsReportOf(f, Next(cs, Some(f))[i].message)
  {
    var at := LastOf(cs, CarrierOf(f));
    if at.Some? {
      LatestIsLast(cs, at.value);
      NextAt(cs, Some(f), at.value);
    }
    NextAppends(cs, Some(f));
    hide Next, IsReportOf, EndsRetries;
  }

  // ---- runs of updates ----

  /** The conditions after a run of updates; None is a success. */
  function Run(cs: seq<Condition>, es: seq<Option<Fault>>): seq<Condition> {
    if es == [] then cs else Next(Run(cs, es[..|es| - 1]), es[|es| - 1])
  }

  /** The last update of the run that was not for a terminal error. */
  function LastNonTerminal(es: seq<Option<Fault>>): Option<Option<Fault>> {
    if es == [] then None
    else if !IsTerminal(es[|es| - 1]) then Some(es[|es| - 1])
    else LastNonTerminal(es[..|es| - 1])
  }

  lemma ExtendsIsTransitive(a: seq<Condition>, b: seq<Condition>, c: seq<Condition>)
    requires Extends(a, b) && Extends(b, c)
    ensures Extends(a, c)
  {
  }

  /** Over a run of any length: conditions keep their place, type and reason, those of other
      types are untouched, and at most two are added, one of each type that was missing. From
      at most one Terminal and one Recoverable condition there is at most one at every time;
      then Terminal is True exactly after a terminal error, and Recoverable exactly when the
      last update that was not for a terminal error was for an error, or was before if there
      was none. */
  lemma {:induction false} RunMeans(cs: seq<Condition>, es: seq<Option<Fault>>)
    requires AtMostOne(cs, Terminal) && AtMostOne(cs, Recoverable)
    ensures var end := Run(cs, es);
            && Extends(cs, end)
            && |end| + Missing(end) == |cs| + Missing(cs)
            && AtMostOne(end, Terminal) && AtMostOne(end, Recoverable)
            && (es != [] ==> (HasTrue(end, Terminal) <==> IsTerminal(es[|es| - 1])))
            && (HasTrue(end, Recoverable)
                <==> var last := LastNonTerminal(es);
                     if last.Some? then last.value.Some? else HasTrue(cs, Recoverable))
  {
    if es != [] {
      var before := Run(cs, es[..|es| - 1]);
      RunMeans(cs, es[..|es| - 1]);
      NextMeans(before, es[|es| - 1]);
      ExtendsIsTransitive(cs, before, Run(cs, es));
      hide Next, Extends, HasTrue, AtMostOne, Missing;
    }
  }

  /** In particular a run adds at most two conditions. */
  lemma RunAddsAtMostTwo(cs: seq<Condition>, es: seq<Option<Fault>>)
    requires AtMostOne(cs, Terminal) && AtMostOne(cs, Recoverable)
    ensures |Run(cs, es)| <= |cs| + 2
  {
    RunMeans(cs, es);
  }

  // ---- on the resource ----

  /** A copy is given back exactly when there is an error or a condition of one of the three types.
      It has the next conditions and the defaults, and is otherwise what it was copied from; a copy
      that is not given back would have had the same conditions. */
  lemma UpdateMeans(id: Identity, r: CapacityProvider, e: Option<Fault>)
    requires NoNil(r.status.conditions)
    ensures var r1, cs := UpdateConditions(id, r, e), ConditionsOf(r.status);
            && (r1.Some? <==>
                  || e.Some?
                  || exists i :: 0 <= i < |cs| && cs[i].kind in {Terminal, Recoverable, ResourceSynced})
            && (r1.None? ==> Next(cs, e) == cs)
            && (r1.Some? ==>
                  var t := r1.value.status;
                  && r1.value == r.(status := WithDefaults(id, r.status).(conditions := t.conditions))
                  && NoNil(t.conditions) && ConditionsOf(t) == Next(cs, e))
  {
    hide Next, WithDefaults;
    if !Updated(ConditionsOf(r.status), e) {
      NotUpdatedMeans(ConditionsOf(r.status), e);
    }
  }

  ghost predicate HasStaleTerminal(cs: seq<Condition>) {
    exists i, j :: 0 <= i < j < |cs| && cs[i].kind == Terminal && cs[i].status == True && cs[j].kind == Terminal
  }

  /** onError for every resource and error. Without a resource the error is given back. Otherwise
      the resource has the next conditions, and the error becomes ackerr.Terminal exactly when it
      ends the retries, or when a Terminal condition other than the last one is True and so is
      never cleared. */
  lemma OnErrorIsTerminalIff(id: Identity, r: Option<CapacityProvider>, e: Option<Fault>)
    requires r.Some? ==> NoNil(r.value.status.conditions)
    ensures var (out, raised) := OnError(id, r, e);
            && (out.None? <==> r.None?)
            && (raised == AckTerminal
                <==> r.Some? && ((e.Some? && EndsRetries(e.value)) || HasStaleTerminal(ConditionsOf(r.value.status))))
            && (raised == Nothing <==> raised != AckTerminal && e.None?)
            && (raised.AsGiven? ==> e == Some(raised.error))
            && (r.Some? ==>
                  var copy := UpdateConditions(id, r.value, e);
                  && out == (if copy.Some? then copy else r)
                  && NoNil(out.value.status.conditions)
                  && ConditionsOf(out.value.status) == Next(ConditionsOf(r.value.status), e))
  {
    if r.Some? {
      var cs := ConditionsOf(r.value.status);
      UpdateMeans(id, r.value, e);
      NextMeans(cs, e);
      TerminalAfterIff(cs, e);
      hide Next, WithDefaults, EndsRetries, UpdateConditions, HasStaleTerminal, Extends, AtMostOne;
      var r1 := UpdateConditions(id, r.value, e);
      if r1.None? {
        assert !HasStaleTerminal(cs) by {
          NoTerminalIsStale(cs);
        }
      }
    }
  }

  lemma NoTerminalIsStale(cs: seq<Condition>)
    requires !exists i :: 0 <= i < |cs| && cs[i].kind in {Terminal, Recoverable, ResourceSynced}
    ensures !HasStaleTerminal(cs)
  {
  }

  lemma TerminalAfterIff(cs: seq<Condition>, e: Option<Fault>)
    ensures HasTrue(Next(cs, e), Terminal) <==> (e.Some? && EndsRetries(e.value)) || HasStaleTerminal(cs)
  {
    hide Raise, Lower, Extends, AtMostOne, LastOf, Missing, Message;
    NextMeans(cs, e);
    if e.Some? {
      FaultMeans(e.value);
    }
    if !IsTerminal(e) {
      LowerMeans(cs, Terminal);
      if e.Some? {
        RaiseMeans(Lower(cs, Terminal), Recoverable, Message(e.value));
      } else {
        LowerMeans(Lower(cs, Terminal), Recoverable);
      }
      assert HasTrue(Next(cs, e), Terminal) <==> HasTrue(Lower(cs, Terminal), Terminal);
      LoweredStillTrueIff(cs, Terminal);
    }
  }

  lemma LoweredStillTrueIff(cs: seq<Condition>, kind: ConditionType)
    ensures HasTrue(Lower(cs, kind), kind)
       <==> exists i, j :: 0 <= i < j < |cs| && cs[i].kind == kind && cs[i].status == True && cs[j].kind == kind
  {
  }

  /** With at most one Terminal condition onError replaces the error exactly when it ends the
      retries, and gives back a copy; onSuccess gives back the resource with the next conditions,
      or none without one. */
  lemma HandlersMean(id: Identity, r: CapacityProvider, f: Fault)
    requires NoNil(r.status.conditions)
    ensures var failed := OnError(id, Some(r), Some(f));
            && failed.0 == UpdateConditions(id, r, Some(f)) && failed.0.Some?
            && (AtMostOne(ConditionsOf(r.status), Terminal) ==>
                  failed.1 == if EndsRetries(f) then AckTerminal else AsGiven(f))
    ensures var done := OnSuccess(id, Some(r));
            && done.Some? && NoNil(done.value.status.conditions)
            && ConditionsOf(done.value.status) == Next(ConditionsOf(r.status), None)
            && done == (if UpdateConditions(id, r, None).Some? then UpdateConditions(id, r, None) else Some(r))
    ensures OnSuccess(id, None) == None
  {
    UpdateMeans(id, r, Some(f));
    UpdateMeans(id, r, None);
    OnErrorIsTerminalIff(id, Some(r), Some(f));
    hide Next, WithDefaults, LastOf, EndsRetries;
  }

  // ---- where the exclusive reading of the conditions fails ----

  /** A recoverable error and then a terminal one: both conditions are True. */
  lemma BothCanBeTrue()
    ensures var f, g := Fault("throttled", None, false, false), Fault("bad input", None, true, false);
            var end := Run([], [Some(f), Some(g)]);
            HasTrue(end, Terminal) && HasTrue(end, Recoverable)
  {
    var f, g := Fault("throttled", None, false, false), Fault("bad input", None, true, false);
    var run := [Some(f), Some(g)];
    assert run[..1] == [Some(f)];
    assert AtMostOne([], Terminal) && AtMostOne([], Recoverable);
    RunMeans([], run);
    assert LastNonTerminal(run) == LastNonTerminal([Some(f)]) == Some(Some(f));
  }

  /** Two Terminal conditions that are True: onError gives back ackerr.Terminal for an error that
      is not terminal. */
  lemma StaleTerminalIsReported(id: Identity)
    ensures var f := Fault("throttled", None, false, false);
            var c := Condition(Terminal, True, None, None);
            var status := Status(None, Some([Some(c), Some(c)]), None, None, None, None);
            var r := CapacityProvider("", Spec(None, None, None, None, None, None), status);
            NoNil(r.status.conditions) && !EndsRetries(f) && OnError(id, Some(r), Some(f)).1 == AckTerminal
  {
    var f := Fault("throttled", None, false, false);
    var c := Condition(Terminal, True, None, None);
    var status := Status(None, Some([Some(c), Some(c)]), None, None, None, None);
    var r := CapacityProvider("", Spec(None, None, None, None, None, None), status);
    var cs := ConditionsOf(r.status);
    assert cs[0] == c && cs[1] == c;
    OnErrorIsTerminalIff(id, Some(r), Some(f));
  }
}
