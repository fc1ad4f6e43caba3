# Capability roster manager — Dafny model

This project models the core of the Slalom Capabilities Management API. The
API keeps an in-memory table of consulting capabilities. Each capability holds
a roster of consultant emails. Practice leads, identified by a username and
password sent in request headers, register and unregister consultants.

The model has four modules:

- `Outcomes` (`outcomes.dfy`): `Option`, `Result`, and the error kinds the
  handlers raise, with their HTTP status codes and detail texts. The two 403
  errors are kept apart, as the code has them: `InvalidCredentials` when no
  account matches, and `Forbidden` when the role check fails.
- `Auth` (`auth.dfy`): practice-lead accounts and the credential lookup.
  `Authenticate` is the reference definition: the first lead in list order
  that matches. `AuthenticateUser` is the loop with an early return, as
  written, proved to compute it. `CurrentUser` is the header gate.
- `Rosters` (`rosters.dfy`): the capability record, the authorisation rule,
  Python's `list.remove` (`RemoveFirst`), and the two guarded transitions
  `RegisterStep` and `UnregisterStep`. Each is a pure function from the old
  table to a reply and the new table. The lemmas state the error order,
  "no change on error", the no-duplicates invariant and the round trip.
- `Service` (`catalog.dfy`): the class `Catalog`. It owns the table in a field
  and changes rosters in place. `Register` and `Unregister` are proved to
  perform exactly `RegisterStep` and `UnregisterStep`, and to keep the
  invariant `Valid()` (no roster holds a duplicate). `RegisterRequest` and
  `UnregisterRequest` put the credential gate in front, since the framework
  resolves `get_current_user` before the handler body runs. The seed data is
  `SeedCapabilities`; the seeded catalog is proved to satisfy `Valid()`. The
  two methods `SeededRegisterScenario` and `SeededUnregisterScenario` start
  from the seeded catalog and derive the documented examples (register
  `carol@slalom.com`, unregister `alice.smith@slalom.com`) from the method
  contracts alone.

The password digest (SHA-256 in the service) is a parameter
`hash: string -> string` of every authentication member. No property depends
on what it computes. Request headers are `Option<string>`: `None` is a missing
header. Python's `not value` test rejects both `None` and `""`. Roles are free
strings, because the credential file may hold any value. The "consultant acts
only for itself" branch is therefore modelled, even though the shipped file
loads only practice leads.

## Model

| member | source | states |
|---|---|---|
| Auth.Authenticate | src/app.py:30-34 | the result is a lead of the list whose username equals the given one and whose stored hash equals the digest of the password; it is None exactly when no lead matches |
| Auth.AuthenticateReturnsFirstMatch | src/app.py:31-33 | the lead returned is the first match in list order: a matching lead with no match before it is the result |
| Auth.AuthenticateUser | src/app.py:30-34 | the scan with early return over the lead list computes Authenticate and changes nothing |
| Auth.CurrentUser | src/app.py:36-44 | the result is Unauthenticated exactly when the username or password header is missing or empty, before any lookup; InvalidCredentials exactly when both are present and no lead matches; otherwise the result is the lead Authenticate picks; no other error is possible |
| Auth.WrongPasswordRejected | src/app.py:41-43 | a request whose password digest matches no lead carrying that username is refused with InvalidCredentials |
| Rosters.RemoveFirst | src/app.py:187 | on a list holding the value, the result is one shorter and its multiset loses exactly one copy of the value; on a list without it the result is the list unchanged, a case the membership check at src/app.py:182 keeps from ever reaching the removal (Python would raise ValueError there) |
| Rosters.RemoveFirstAt | src/app.py:187 | removal cuts out exactly the first position holding the value and keeps the rest in order |
| Rosters.RemoveFirstDistinct | src/app.py:182-187 | on a duplicate-free roster, removal keeps it duplicate-free and leaves no copy of the removed email |
| Rosters.RemoveFirstOfAppended | src/app.py:164 | removing an email that was appended to a roster lacking it gives back that roster |
| Rosters.RegisterStep | src/app.py:150-167 | capability names are kept; on any error the table is unchanged; success exactly when the capability exists, the actor may act for the email and the email is absent; then the roster is the old one plus the email at the end, the message is "Registered {email} for {name}", the metadata and every other capability are unchanged |
| Rosters.UnregisterStep | src/app.py:173-190 | capability names are kept; on any error the table is unchanged; success exactly when the capability exists, the actor may act for the email and the email is present; then the roster is one shorter with one copy of the email gone, the message is "Unregistered {email} from {name}", the metadata and every other capability are unchanged |
| Rosters.UnknownCapabilityIsNotFound | src/app.py:151-152 | an unknown capability name gives NotFound for register and for unregister, whoever acts and whatever the email, with the table unchanged (the same check is at src/app.py:174-175) |
| Rosters.UnauthorisedActorIsForbidden | src/app.py:157-167 | on a known capability, an actor that is neither a practice lead nor a consultant acting for its own username gets Forbidden from both operations, before membership is looked at, with the table unchanged (the same rule is at src/app.py:180-190) |
| Rosters.DuplicateRegisterRefused | src/app.py:159-163 | an authorised register of an email already on the roster gives AlreadyRegistered with the table unchanged |
| Rosters.AbsentUnregisterRefused | src/app.py:182-186 | an authorised unregister of an email absent from the roster gives NotRegistered with the table unchanged |
| Rosters.UnregisterRemovesFirstOccurrence | src/app.py:187-188 | a successful unregister removes exactly the first occurrence of the email and keeps the order of the others |
| Rosters.RegisterPreservesDistinct | src/app.py:159-164 | if no roster holds a duplicate before a register, none does after it |
| Rosters.UnregisterPreservesDistinct | src/app.py:182-187 | if no roster holds a duplicate before an unregister, none does after it |
| Rosters.RegisterTwice | src/app.py:159-164 | after a successful register, registering the same email again gives AlreadyRegistered with the table unchanged, and the email is on the roster exactly once |
| Rosters.UnregisterTwice | src/app.py:182-187 | on duplicate-free rosters, after a successful unregister, unregistering the same email again gives NotRegistered with the table unchanged |
| Rosters.RegisterThenUnregister | src/app.py:159-188 | a successful register followed by an unregister of the same email by the same actor succeeds and restores the original table exactly |
| Service.Catalog.GetCapabilities | src/app.py:142-144 | the whole table is returned, unfiltered, and nothing changes |
| Service.Catalog.Register | src/app.py:148-167 | the reply and the new table are those of RegisterStep on the old table; the no-duplicates invariant is kept |
| Service.Catalog.Unregister | src/app.py:171-190 | the reply and the new table are those of UnregisterStep on the old table; the no-duplicates invariant is kept |
| Service.Catalog.RegisterRequest | src/app.py:147-148 | a credential failure is returned as is and leaves the table unchanged, whatever the capability; otherwise the call behaves as Register for the authenticated lead |
| Service.Catalog.UnregisterRequest | src/app.py:170-171 | a credential failure is returned as is and leaves the table unchanged, whatever the capability; otherwise the call behaves as Unregister for the authenticated lead |
| Service.Catalog.Seeded | src/app.py:52-134 | the catalog starts with the seeded table of nine capabilities, and that table satisfies the no-duplicates invariant |
| Service.Catalog.constructor | src/app.py:52 | a catalog over any given table holds exactly that table |
| Service.SeedDistinct | src/app.py:52-134 | no seeded roster holds a duplicate |
| Service.SeedCloudArchitecture | src/app.py:53-61 | the seeded table has a Cloud Architecture entry whose roster is alice.smith@slalom.com then bob.johnson@slalom.com |
| Service.ScenarioLead | src/app.py:30-44 | a practice-lead account whose stored hash is the digest of its password passes the credential gate with its own headers |
| Service.SeededRegisterScenario | src/app.py:159-165 | on the seeded catalog, a practice lead registering carol@slalom.com for Cloud Architecture gets "Registered carol@slalom.com for Cloud Architecture" and the roster becomes alice, bob, carol |
| Service.RegisterCarol | src/app.py:159-165 | the same register scenario on any catalog whose Cloud Architecture roster is the seeded one |
| Service.SeededUnregisterScenario | src/app.py:182-188 | on the seeded catalog, registering alice.smith@slalom.com again gives AlreadyRegistered; unregistering her gives "Unregistered alice.smith@slalom.com from Cloud Architecture" and leaves bob alone; a second unregister gives NotRegistered; a request without a password gives Unauthenticated |
| Service.UnregisterAlice | src/app.py:182-188 | the same unregister scenario on any catalog whose Cloud Architecture roster is the seeded one |
| Outcomes.StatusCode | src/app.py:40-190 | 401 exactly for Unauthenticated, 403 exactly for InvalidCredentials and Forbidden, 404 exactly for NotFound, 400 exactly for AlreadyRegistered and NotRegistered |
| Outcomes.Detail | src/app.py:40-190 | definition only: the detail text each HTTPException carries ("Missing credentials", "Invalid credentials", "Capability not found", "Insufficient permissions", and the two 400 texts) |
| Outcomes.ErrorsDistinguishable | src/app.py:40-190 | two errors with the same status code and the same detail text are the same error, so each error kind is distinguishable by a client |
| Auth.Matches | src/app.py:32 | definition only: the username equals the given one and the stored hash equals the digest of the password |
| Auth.Present | src/app.py:39 | definition only: Python's truthiness of a header value, which fails for a missing header and for the empty string |
| Auth.CredentialFailureStatus | src/app.py:39-43 | a refused request has status 401 exactly when a header is missing or empty, and 403 exactly when both are present and no lead matches |
| Rosters.MayActFor | src/app.py:158 | a practice lead may act for any email; a consultant exactly for its own username; any other role for none (the same rule is at src/app.py:181) |
| Rosters.RosterFailureStatus | src/app.py:150-190 | a refused register or unregister has status 404 exactly for an unknown capability, 403 exactly for an unauthorised actor on a known one, and 400 exactly for the membership refusal |
| Rosters.RegisteredMessage | src/app.py:165 | definition only: "Registered {email} for {capability_name}" |
| Rosters.UnregisteredMessage | src/app.py:188 | definition only: "Unregistered {email} from {capability_name}" |

## Left out

- The web framework: routing, dependency wiring, the exception plumbing, the
  root redirect (src/app.py:137-139) and the static files mount
  (src/app.py:46-49). Errors are a `Result` value instead. Validation of
  missing query parameters by the framework is not modelled.
- Loading `practice_leads.json` from disk (src/app.py:19-25). The lead list is
  a parameter. A missing file gives the empty list, under which every
  credentialed request is refused with InvalidCredentials.
- The SHA-256 digest in `hash_password` (src/app.py:27-28). It is a library
  call and is passed in as the function `hash`.
- Service.Catalog.GetCapabilities: returns the table as a value. The source
  returns the live dictionary, so a caller could alias it; the framework
  serialises it to JSON at once, and dictionary order in that JSON is not
  modelled.
- Concurrent register and unregister calls. The source has no locking, and
  the model is sequential.
