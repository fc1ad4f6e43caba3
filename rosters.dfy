/** The capability table and the two roster transitions, as pure functions from
    the old table to a reply and the new table. The class in module Service
    performs these transitions in place. */
module Rosters {
  import opened Outcomes
  import opened Auth

  /** A capability record. Only `consultants` is ever changed; the other fields
      are carried along untouched. */
  datatype Capability = Capability(
    description: string,
    practiceArea: string,
    skillLevels: seq<string>,
    certifications: seq<string>,
    industryVerticals: seq<string>,
    capacity: int,              // hours per week available across the team
    consultants: seq<string>)   // registration order

  /** The in-memory table, keyed by capability name. */
  type Table = map<string, Capability>

  const PracticeLead: string := "practice_lead"
  const ConsultantRole: string := "consultant"

  /** The authorisation rule: a practice lead may act for anyone, a consultant
      only for its own username. */
  predicate MayActFor(user: Account, email: string)
    ensures user.role == PracticeLead ==> MayActFor(user, email)
    ensures user.role == ConsultantRole ==> (MayActFor(user, email) <==> user.username == email)
    ensures user.role != PracticeLead && user.role != ConsultantRole ==> !MayActFor(user, email)
  {
    user.role == PracticeLead || (user.role == ConsultantRole && user.username == email)
  }

  /** No identifier appears twice. */
  ghost predicate Distinct(s: seq<string>) {
    forall i, j :: 0 <= i < j < |s| ==> s[i] != s[j]
  }

  /** The table invariant: every roster is free of duplicates. */
  ghost predicate RostersDistinct(t: Table) {
    forall name :: name in t ==> Distinct(t[name].consultants)
  }

  /** List removal as Python's `list.remove` does it on a list that holds the
      value: the first occurrence goes, the rest keep their order. On a list
      without the value Python raises ValueError instead; the handler's
      membership check comes first, so that case never reaches the removal,
      and here it simply leaves the list as it is. */
  function RemoveFirst(s: seq<string>, x: string): (r: seq<string>)
    ensures x !in s ==> r == s
    ensures x in s ==> |r| == |s| - 1
    ensures multiset(r) == multiset(s) - multiset{x}
  {
    if s == [] then []
    else
      assert s == [s[0]] + s[1..];
      if s[0] == x then s[1..]
      else
        var rest := RemoveFirst(s[1..], x);
        assert multiset([s[0]] + rest) == multiset{s[0]} + multiset(rest);
        [s[0]] + rest
  }

  /** RemoveFirst cuts out exactly the first position that holds x. */
  lemma {:induction false} RemoveFirstAt(s: seq<string>, x: string, i: nat)
    requires i < |s| && s[i] == x && x !in s[..i]
    ensures RemoveFirst(s, x) == s[..i] + s[i + 1..]
  {
    if i > 0 {
      assert s[0] != x by { assert s[0] == s[..i][0]; }
      assert s[1..][..i - 1] == s[1..i];
      assert x !in s[1..][..i - 1];
      RemoveFirstAt(s[1..], x, i - 1);
      assert s[..i] == [s[0]] + s[1..i];
      assert s[1..][i..] == s[i + 1..];
    }
  }

  /** Every value present has a first position. */
  lemma FirstOccurrence(s: seq<string>, x: string) returns (i: nat)
    requires x in s
    ensures i < |s| && s[i] == x && x !in s[..i]
  {
    i := 0;
    while s[i] != x
      decreases |s| - i
      invariant i < |s| && x !in s[..i] && x in s[i..]
    {
      assert s[i..] == [s[i]] + s[i + 1..];
      assert s[..i + 1] == s[..i] + [s[i]];
      i := i + 1;
    }
  }

  /** Cutting one position out of a duplicate-free sequence keeps it
      duplicate-free and leaves no copy of the value that stood there. */
  lemma CutDistinct(s: seq<string>, i: nat)
    requires Distinct(s) && i < |s|
    ensures Distinct(s[..i] + s[i + 1..])
    ensures s[i] !in s[..i] + s[i + 1..]
  {
    var r := s[..i] + s[i + 1..];
    assert forall k :: 0 <= k < |r| ==> r[k] == s[if k < i then k else k + 1];
  }

  /** Removing one value keeps a duplicate-free roster duplicate-free and leaves
      no copy of the removed value behind. */
  lemma RemoveFirstDistinct(s: seq<string>, x: string)
    requires Distinct(s)
    ensures Distinct(RemoveFirst(s, x))
    ensures x !in RemoveFirst(s, x)
  {
    if x in s {
      var i := FirstOccurrence(s, x);
      RemoveFirstAt(s, x, i);
      CutDistinct(s, i);
    }
  }

  /** Removing a value that was appended to a roster lacking it gives back the
      roster. */
  lemma {:induction false} RemoveFirstOfAppended(s: seq<string>, x: string)
    requires x !in s
    ensures RemoveFirst(s + [x], x) == s
  {
    if s != [] {
      assert (s + [x])[1..] == s[1..] + [x];
      RemoveFirstOfAppended(s[1..], x);
    }
  }

  function RegisteredMessage(email: string, name: string): string {
    "Registered " + email + " for " + name
  }

  function UnregisteredMessage(email: string, name: string): string {
    "Unregistered " + email + " from " + name
  }

  /** The outcome of one handler call: the reply and the table afterwards. */
  datatype Step = Step(reply: Result<string>, table: Table)

  /** `register_for_capability` once the caller is authenticated: existence,
      then permission, then membership, then the append. */
  function RegisterStep(t: Table, name: string, email: string, user: Account): (r: Step)
    ensures r.table.Keys == t.Keys
    ensures r.reply.Failure? ==> r.table == t
    ensures r.reply.Success? <==>
      name in t && MayActFor(user, email) && email !in t[name].consultants
    ensures r.reply.Success? ==>
      && r.reply.value == RegisteredMessage(email, name)
      && r.table[name].consultants == t[name].consultants + [email]
      && r.table[name] == t[name].(consultants := r.table[name].consultants)
      && forall other :: other in t && other != name ==> r.table[other] == t[other]
  {
    if name !in t then Step(Failure(NotFound), t)
    else
      var capability := t[name];
      if MayActFor(user, email) then
        if email in capability.consultants then Step(Failure(AlreadyRegistered), t)
        else Step(Success(RegisteredMessage(email, name)),
                  t[name := capability.(consultants := capability.consultants + [email])])
      else Step(Failure(Forbidden), t)
  }

  /** `unregister_from_capability` once the caller is authenticated: existence,
      then permission, then membership, then the removal. */
  function UnregisterStep(t: Table, name: string, email: string, user: Account): (r: Step)
    ensures r.table.Keys == t.Keys
    ensures r.reply.Failure? ==> r.table == t
    ensures r.reply.Success? <==>
      name in t && MayActFor(user, email) && email in t[name].consultants
    ensures r.reply.Success? ==>
      && r.reply.value == UnregisteredMessage(email, name)
      && |r.table[name].consultants| == |t[name].consultants| - 1
      && multiset(r.table[name].consultants) == multiset(t[name].consultants) - multiset{email}
      && r.table[name] == t[name].(consultants := r.table[name].consultants)
      && forall other :: other in t && other != name ==> r.table[other] == t[other]
  {
    if name !in t then Step(Failure(NotFound), t)
    else
      var capability := t[name];
      if MayActFor(user, email) then
        if email !in capability.consultants then Step(Failure(NotRegistered), t)
        else Step(Success(UnregisteredMessage(email, name)),
                  t[name := capability.(consultants := RemoveFirst(capability.consultants, email))])
      else Step(Failure(Forbidden), t)
  }

  /** The status codes of the roster errors: 404 exactly for an unknown
      capability, 403 exactly for an unauthorised actor on a known one, 400
      exactly for a membership refusal, for both operations. */
  lemma RosterFailureStatus(t: Table, name: string, email: string, user: Account)
    ensures var r := RegisterStep(t, name, email, user).reply;
      r.Failure? ==>
        && (StatusCode(r.error) == 404 <==> name !in t)
        && (StatusCode(r.error) == 403 <==> name in t && !MayActFor(user, email))
        && (StatusCode(r.error) == 400 <==> name in t && MayActFor(user, email) && email in t[name].consultants)
    ensures var r := UnregisterStep(t, name, email, user).reply;
      r.Failure? ==>
        && (StatusCode(r.error) == 404 <==> name !in t)
        && (StatusCode(r.error) == 403 <==> name in t && !MayActFor(user, email))
        && (StatusCode(r.error) == 400 <==> name in t && MayActFor(user, email) && email !in t[name].consultants)
  {
  }

  /** The existence check comes first: an unknown name is NotFound for both
      operations, whoever acts and whatever the email, and nothing changes. */
  lemma UnknownCapabilityIsNotFound(t: Table, name: string, email: string, user: Account)
    requires name !in t
    ensures RegisterStep(t, name, email, user) == Step(Failure(NotFound), t)
    ensures UnregisterStep(t, name, email, user) == Step(Failure(NotFound), t)
  {
  }

  /** The permission check comes before the membership check: an actor that
      may not act for `email` is Forbidden on a known capability, whether or not
      `email` is on its roster, and nothing changes. */
  lemma UnauthorisedActorIsForbidden(t: Table, name: string, email: string, user: Account)
    requires name in t && !MayActFor(user, email)
    ensures RegisterStep(t, name, email, user) == Step(Failure(Forbidden), t)
    ensures UnregisterStep(t, name, email, user) == Step(Failure(Forbidden), t)
  {
  }

  /** An authorised register of an email already on the roster is refused with
      AlreadyRegistered and changes nothing. */
  lemma DuplicateRegisterRefused(t: Table, name: string, email: string, user: Account)
    requires name in t && MayActFor(user, email) && email in t[name].consultants
    ensures RegisterStep(t, name, email, user) == Step(Failure(AlreadyRegistered), t)
  {
  }

  /** An authorised unregister of an email absent from the roster is refused
      with NotRegistered and changes nothing. */
  lemma AbsentUnregisterRefused(t: Table, name: string, email: string, user: Account)
    requires name in t && MayActFor(user, email) && email !in t[name].consultants
    ensures UnregisterStep(t, name, email, user) == Step(Failure(NotRegistered), t)
  {
  }

  /** A successful unregister removes exactly the first occurrence of the email
      and keeps the order of the others. */
  lemma UnregisterRemovesFirstOccurrence(t: Table, name: string, email: string, user: Account)
    requires UnregisterStep(t, name, email, user).reply.Success?
    ensures var s := t[name].consultants;
      exists i :: 0 <= i < |s| && s[i] == email && email !in s[..i] &&
        UnregisterStep(t, name, email, user).table[name].consultants == s[..i] + s[i + 1..]
  {
    var s := t[name].consultants;
    var i := FirstOccurrence(s, email);
    RemoveFirstAt(s, email, i);
  }

  /** Register keeps the table invariant: no roster gains a duplicate. */
  lemma RegisterPreservesDistinct(t: Table, name: string, email: string, user: Account)
    requires RostersDistinct(t)
    ensures RostersDistinct(RegisterStep(t, name, email, user).table)
  {
    var r := RegisterStep(t, name, email, user);
    if r.reply.Success? {
      var s := t[name].consultants;
      var s' := r.table[name].consultants;
      assert Distinct(s) && email !in s;
      forall i, j | 0 <= i < j < |s'| ensures s'[i] != s'[j] {
        if j == |s| { assert s'[j] == email && s'[i] == s[i]; }
      }
    }
  }

  /** Unregister keeps the table invariant. */
  lemma UnregisterPreservesDistinct(t: Table, name: string, email: string, user: Account)
    requires RostersDistinct(t)
    ensures RostersDistinct(UnregisterStep(t, name, email, user).table)
  {
    if UnregisterStep(t, name, email, user).reply.Success? {
      RemoveFirstDistinct(t[name].consultants, email);
    }
  }

  /** Register after a successful register of the same email is refused with
      AlreadyRegistered and changes nothing: the email stays on once. */
  lemma RegisterTwice(t: Table, name: string, email: string, user: Account)
    requires RegisterStep(t, name, email, user).reply.Success?
    ensures var t' := RegisterStep(t, name, email, user).table;
      RegisterStep(t', name, email, user) == Step(Failure(AlreadyRegistered), t')
      && multiset(t'[name].consultants)[email] == 1
  {
    var s := t[name].consultants;
    assert multiset(s)[email] == 0;
  }

  /** On duplicate-free rosters, unregister after a successful unregister of the
      same email is refused with NotRegistered and changes nothing. */
  lemma UnregisterTwice(t: Table, name: string, email: string, user: Account)
    requires RostersDistinct(t)
    requires UnregisterStep(t, name, email, user).reply.Success?
    ensures var t' := UnregisterStep(t, name, email, user).table;
      UnregisterStep(t', name, email, user) == Step(Failure(NotRegistered), t')
  {
    RemoveFirstDistinct(t[name].consultants, email);
  }

  /** Round trip: a successful register followed by an unregister of the same
      email by the same actor restores the table exactly. */
  lemma RegisterThenUnregister(t: Table, name: string, email: string, user: Account)
    requires RegisterStep(t, name, email, user).reply.Success?
    ensures var t' := RegisterStep(t, name, email, user).table;
      UnregisterStep(t', name, email, user) == Step(Success(UnregisteredMessage(email, name)), t)
  {
    var c := t[name];
    var s := c.consultants;
    var t' := t[name := c.(consultants := s + [email])];
    assert RegisterStep(t, name, email, user).table == t';
    RemoveFirstOfAppended(s, email);
    assert t'[name].consultants == s + [email];
    assert t'[name := t'[name].(consultants := RemoveFirst(s + [email], email))] == t;
  }
}
