/** The credential store, the authenticator and the request credential gate.
    The password digest (SHA-256 in the deployed service) is passed in as a
    function `hash`, so nothing below depends on what the digest computes. */
module Auth {
  import opened Outcomes

  /** A practice-lead record as loaded from the credential file. The role is
      free text, because the file may hold any value there. */
  datatype Account = Account(username: string, passwordHash: string, role: string)

  /** The test applied to each lead: same username, and the stored hash equals
      the digest of the supplied password. */
  predicate Matches(lead: Account, username: string, password: string, hash: string -> string) {
    lead.username == username && lead.passwordHash == hash(password)
  }

  /** Reference definition of the lookup: the first matching lead, in list
      order, or None when no lead matches. */
  function Authenticate(leads: seq<Account>, username: string, password: string,
                        hash: string -> string): (r: Option<Account>)
    ensures r.Some? ==> r.value in leads && Matches(r.value, username, password, hash)
    ensures r.None? <==> forall i :: 0 <= i < |leads| ==> !Matches(leads[i], username, password, hash)
  {
    if leads == [] then None
    else if Matches(leads[0], username, password, hash) then Some(leads[0])
    else Authenticate(leads[1..], username, password, hash)
  }

  /** The lead that Authenticate picks is the FIRST match: any matching lead
      with no match before it is the one returned. */
  lemma {:induction false} AuthenticateReturnsFirstMatch(leads: seq<Account>, username: string,
                                                         password: string, hash: string -> string, i: nat)
    requires i < |leads| && Matches(leads[i], username, password, hash)
    requires forall j :: 0 <= j < i ==> !Matches(leads[j], username, password, hash)
    ensures Authenticate(leads, username, password, hash) == Some(leads[i])
  {
    if i > 0 {
      assert forall j :: 0 <= j < i - 1 ==> leads[1..][j] == leads[j + 1];
      AuthenticateReturnsFirstMatch(leads[1..], username, password, hash, i - 1);
    }
  }

  /** The scan over the lead list with an early return on the first match;
      it reads the list and changes nothing. */
  method AuthenticateUser(leads: seq<Account>, username: string, password: string,
                          hash: string -> string) returns (r: Option<Account>)
    ensures r == Authenticate(leads, username, password, hash)
  {
    for i := 0 to |leads|
      invariant Authenticate(leads, username, password, hash) == Authenticate(leads[i..], username, password, hash)
    {
      var lead := leads[i];
      if lead.username == username && lead.passwordHash == hash(password) {
        return Some(lead);
      }
      assert leads[i..][1..] == leads[i + 1..];
    }
    return None;
  }

  /** Python's truthiness test on a header value: absent and empty both fail. */
  predicate Present(header: Option<string>) {
    header.Some? && header.value != ""
  }

  /** The request credential gate: the two headers, then the lookup. */
  function CurrentUser(leads: seq<Account>, usernameHeader: Option<string>, passwordHeader: Option<string>,
                       hash: string -> string): (r: Result<Account>)
    ensures r == Failure(Unauthenticated) <==> !Present(usernameHeader) || !Present(passwordHeader)
    ensures r == Failure(InvalidCredentials) <==>
      Present(usernameHeader) && Present(passwordHeader) &&
      forall i :: 0 <= i < |leads| ==> !Matches(leads[i], usernameHeader.value, passwordHeader.value, hash)
    ensures r.Success? ==>
      Present(usernameHeader) && Present(passwordHeader) &&
      r.value in leads && Matches(r.value, usernameHeader.value, passwordHeader.value, hash) &&
      Authenticate(leads, usernameHeader.value, passwordHeader.value, hash) == Some(r.value)
    ensures r.Success? || r.error == Unauthenticated || r.error == InvalidCredentials
  {
    if !Present(usernameHeader) || !Present(passwordHeader) then Failure(Unauthenticated)
    else
      match Authenticate(leads, usernameHeader.value, passwordHeader.value, hash)
      case None => Failure(InvalidCredentials)
      case Some(user) => Success(user)
  }

  /** A wrong password for a known username is refused with InvalidCredentials
      when no other lead carries that username with a matching hash. */
  lemma WrongPasswordRejected(leads: seq<Account>, username: string, password: string,
                              hash: string -> string)
    requires username != "" && password != ""
    requires forall i :: 0 <= i < |leads| && leads[i].username == username ==> leads[i].passwordHash != hash(password)
    ensures CurrentUser(leads, Some(username), Some(password), hash) == Failure(InvalidCredentials)
  {
  }

  /** The status codes of the gate: 401 exactly when a header is missing or
      empty, 403 exactly when both are present and no lead matches. */
  lemma CredentialFailureStatus(leads: seq<Account>, usernameHeader: Option<string>, passwordHeader: Option<string>,
                                hash: string -> string)
    requires CurrentUser(leads, usernameHeader, passwordHeader, hash).Failure?
    ensures var code := StatusCode(CurrentUser(leads, usernameHeader, passwordHeader, hash).error);
      && (code == 401 <==> !Present(usernameHeader) || !Present(passwordHeader))
      && (code == 403 <==> Present(usernameHeader) && Present(passwordHeader) &&
                           Authenticate(leads, usernameHeader.value, passwordHeader.value, hash).None?)
  {
  }
}
