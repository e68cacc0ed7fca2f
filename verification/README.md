# Verification of the tenancy, session and audit core

A Dafny model of three parts of the system, with proofs about every run of them:

- **Tenancy and capabilities.** A membership is stored twice: as one `(organisation, actor, role)` row, and
  as a fan-out of capability rows, which are all that `can()` reads. Of the eleven services modelled, eight
  write one copy or the other, through two different nested loops; inviting, offering a share and deleting a
  project write neither. The proofs show that the copies never disagree, that the capability table answers
  exactly as a small role-and-grant specification does, and what follows from it for owners, guests, tenants
  side by side, deleted organisations, revoked shares and the audit log.
- **Refresh-token families.** The Redis store of rotating refresh tokens (rotation with replay detection as
  in section 4.14.2 of RFC 9700), its per-actor index with deadlines, and one browser tab with its single
  refresh in flight, composed with the server and with other clients.
- **Audit erasure and redaction.** The filtered in-place scrub of a log whose rows are never deleted, and
  the recursive masking of denied keys in JSON diffs.

`dafny verify dfyconfig.toml` checks the whole project. The modules, in reading order:

| part | modules |
|---|---|
| tables, bundles, minting and `can` | `Prelude`, `Bundles`, `Tables`, `Authz` |
| services as state transitions; routes and runs | `Services`, `Routes` |
| the same services as methods that update the tables row by row | `TenantStore` |
| append-only history, the fan-out invariant and its preservation | `History`, `Minting`, `Invariants`, `FanOutSteps`, `SaneSteps` |
| the access specification and the refinement | `AccessSpec`, `Refinement` |
| consequences over whole runs | `Safety`, `Replay`, `Commute`, `Interleaving`, `Guests`, `Provenance`, `Directory`, `Entrance`, `Tokens`, `Outcomes`, `Journal`, `AuditScope`, `Isolation` |
| runs that show where an expected property fails | `Witnesses` |
| refresh families | `Families`, `Rotations`, `IndexCover`, `SessionSpec`, `Sessions` |
| audit | `Redaction`, `Scrub`, `ScrubLaws` |

A service is given twice: as a function on the whole state (`Services`, `Families`, `Scrub.Perform`), about
which everything is proved, and as a method of a class with mutable tables that takes the source's steps in
the source's order and is proved to have exactly that function's effect and result. A run is a sequence of
states joined by requests (`Routes.Trace`); each request goes through its route's gate first.

## Assumptions

- Each service call is one transaction, an error undoes it (backend/src/fastsaas/db.py:83-94), and
  transactions are serialised, except that accepting an invitation and accepting a share are also taken
  apart and interleaved with everything else, any number at a time (`Interleaving`). A share row that an
  accept has consumed but not committed is locked: whoever else would write it waits. For invitations one
  thing is assumed, `Calm`: no request deletes an organisation while one of its invitations is between
  lookup and consume. `FinishIsAtomicIff` says exactly when the two halves amount to the whole call, and
  `Witnesses.CalmIsNeeded` is a run in which that one request leaves an active capability in a deleted
  organisation.
- Row ids, tokens, family ids and jtis are fresh when drawn. A raw invitation or share token is represented
  by the key of the row that stores its hash; hashes are injective and signed tokens cannot be forged.
- A query without `ORDER BY` returns rows in creation order. No theorem but the order of a listing depends
  on it.
- The account behind an e-mail address is looked up outside the model; `Invite` is given its result.
- Every request carries an audit context, except in the scrub, where a missing one is modelled.
- Resetting a password ends the actor's families in one atomic step.
- Clocks do not run backwards where a theorem says `Monotone`.
- In the browser: one tab. `Sessions.Orderly` names the two remaining conditions (every refresh response
  is delivered, the refreshing actor is not disabled), and a lemma for each shows that it is needed.

## Where the code and its descriptions differ

The model follows the code.

- The route that revokes a share checks the caller against the project in its path and does not compare
  that project with the share's (backend/src/fastsaas/api/projects.py:333-372). So a request can end a guest's
  access in an organisation it does not name and whose members do not include the caller
  (`Witnesses.OutsiderEndsGuest`). And the service logs the revoke of a consumed share even when its capability
  was revoked before and nothing is left to do (backend/src/fastsaas/tenants/service.py:1170-1222), so the same
  request, repeated, changes no table but keeps adding rows to that organisation's log
  (`Witnesses.OutsiderWritesLog`, `Isolation.EndedShareIsLoggedAgain`). No other request that does not name an
  organisation changes anything of it: `Isolation.UntouchedIff` gives the exact condition for its tables and
  log together, `Isolation.SameHoldingsIff` and `Isolation.SameLogIff` for each, and
  `Isolation.RevokerMayShareIff` says exactly when a caller the gate lets through may share the share's own project.
- The scrub is described as returning 0 when run again. The second run also finds the meta row the first
  one wrote, whose metadata names the request path, so the count is 1 whenever the filter fits the request
  that ran it (`ScrubLaws.RerunTouchesOnlyTheMetaRow`, `ScrubLaws.MetaRowIsHitIffMatched`,
  `ScrubLaws.RerunReportsOne`).
- A scrub by `ip` records the address in the diff of its own meta row, where no scrub reaches
  (`ScrubLaws.AddressStaysInTheDiff`).
- A password reset is described as ending all of an actor's sessions. It ends those the index lists, and a
  session kept alive by refreshing for longer than 30 days after the actor's last login is not listed
  (`IndexCover.ResetMissesIffUncovered`, `IndexCover.RefreshedFamilyOutlivesReset`). The count it returns
  includes families that had already expired (`IndexCover.ResetCountIsExactIff`, `IndexCover.ResetOvercounts`).
- A refused refresh is meant to clear the cookie, but the handler raises after setting the header on a
  response object that the framework then discards (backend/src/fastsaas/api/auth.py:206-211). The model lets
  a refusal clear the cookie or not; `Sessions.RefusedRefreshKeepsTheCookie`, `Sessions.DeadCookieStays` and
  `Sessions.OverUntilLogin` say what follows when it does not: the dead cookie stays and is sent each time, and
  every refresh until the next login is refused as unknown.
- The comment on accepting an invitation says the route compares the caller's address with the invited one;
  the route only asks for a verified address (backend/src/fastsaas/api/orgs.py:317-336), so whoever holds the
  token is admitted (`Provenance.AdmittedIff`).
- The comment on changing a role says compliance officers are refused; no branch does so.
- The comment on inviting speaks of `share`; the route checks `admin`.

Two branches have no effect on what the repository itself sends or writes. A row whose personal data is JSON null
is matched by a filter but not erased, because `!=` on a null is not true (`ScrubLaws.ScrubsEraseAllMatchesIff`).
Request metadata carries only strings under those keys (backend/src/fastsaas/audit/intent.py:69-93), and on such
rows the filters alone decide (`ScrubLaws.StringRowsFollowTheFilters`). Likewise the share service takes a ttl of
zero for the default of 14 days, which concerns its direct callers only: a request carries 1 to 30 days or none
(backend/src/fastsaas/tenants/schemas.py:170-177).

## Model

| member | source | states |
|---|---|---|
| `Refinement.CapabilitiesRefineAccess` | backend/src/fastsaas/authz/check.py:25-116 | at every point of every run and every time, `can` on any organisation, and on any project not soft-deleted, answers exactly as the access specification: by role in a live organisation, or, to read a project, by an unexpired accepted grant |
| `Refinement.RunsSimulate` | backend/src/fastsaas/tenants/service.py:53-1222 | the specification stepped by events stays related to the tables: same live organisations and projects, same roles, one active guest row per open grant |
| `Refinement.CanProjectAgrees` | backend/src/fastsaas/authz/check.py:52-92 | related states agree on every project check, in both directions |
| `Refinement.CanOrganisationAgrees` | backend/src/fastsaas/authz/check.py:52-92 | related states agree on every organisation check, in both directions |
| `Refinement.ShareRowsRevoked` | backend/src/fastsaas/tenants/service.py:1144-1188 | revoking a share ends every row that stems from it and touches no other active row |
| `SaneSteps.NextKeepsInv` | backend/src/fastsaas/tenants/dependencies.py:43-101 | any request whatever, let through or refused, keeps rows well-formed and the fan-out exact |
| `SaneSteps.RunsKeepInv` | backend/src/fastsaas/tenants/service.py:53-1222 | every reachable state has well-formed rows and the exact fan-out |
| `Safety.ExactFanOut` | backend/src/fastsaas/authz/service.py:68-82 | for every entitlement: exactly one active row if a member of a live organisation is owed it, at most one otherwise, and any surplus row is for a deleted project and a current member's current role |
| `Minting.PrimaryRows` | backend/src/fastsaas/authz/service.py:68-86 | the templates-by-projects loop mints, for one member, each entitlement of the role over the given projects exactly once and nothing else |
| `Minting.ProjectRowsHold` | backend/src/fastsaas/tenants/service.py:756-773 | the members-by-templates loop mints, for one project, each entitlement of each member's role exactly once and nothing else |
| `Commute.JoinAndCreateCommute` | backend/src/fastsaas/tenants/service.py:441-458 | at any point of any run, joining and then creating a project, or the reverse, give the same active rights over live targets: the two loops agree |
| `FanOutSteps.ChangeRoleFanOut` | backend/src/fastsaas/tenants/service.py:493-563 | revoking the old role's bundle and minting the new one moves the fan-out from one role to the other exactly |
| `Bundles.ScopesFollowTypes` | backend/src/fastsaas/authz/bundles.py:71-124 | in every primary bundle project templates are `all_in_org` and all others `self` |
| `Bundles.BundlesIncrease` | backend/src/fastsaas/authz/bundles.py:71-124 | no primary bundle lists a template twice |
| `Bundles.GrantedIffHolder` | backend/src/fastsaas/authz/bundles.py:71-124 | the table read by columns: which roles hold each operation on each type, and that nobody holds any other |
| `Bundles.RolesAreNested` | backend/src/fastsaas/authz/bundles.py:71-124 | on organisations and projects owner covers admin covers member covers viewer, and the compliance and DPO roles hold nothing |
| `Authz.ScopesCoveredIff` | backend/src/fastsaas/authz/service.py:36-66 | a guest mint needs a resource; a primary mint needs the project list exactly for the four roles with project templates |
| `Authz.GuestBundleIsOneRead` | backend/src/fastsaas/authz/service.py:260-280 | minting the guest bundle writes one read of the resource given |
| `Authz.CanIffLet` | backend/src/fastsaas/authz/check.py:25-116 | on any capability table, reachable or not, `can` is that some row of the actor passes column by column; a row without a resource covers them all |
| `History.ServeGrows` | backend/src/fastsaas/authz/service.py:115-125 | whatever the state and the arguments, a call deletes no capability, revokes an active one at most once, and changes nothing else in it but revocation metadata; other tables only gain rows and consumption or deletion marks |
| `History.RunsGrow` | backend/src/fastsaas/tenants/service.py:209-223 | the same between any two points of any run |
| `Safety.LastOwnerStays` | backend/src/fastsaas/tenants/service.py:680-688 | at every point of every run each organisation ever created has an owner |
| `Safety.AnotherOwner` | backend/src/fastsaas/tenants/service.py:517-518 | where the count passes the last-owner guard, some other actor is an owner |
| `Safety.WhereOwnersComeFrom` | backend/src/fastsaas/tenants/service.py:256-264 | a new owner row comes from creating the organisation or from a role change, never from an invitation |
| `Safety.OrgDeletionIsTerminal` | backend/src/fastsaas/tenants/service.py:205-223 | once an organisation is deleted no capability tagged with it is active in any later state, and every check on it fails |
| `Safety.ShareRevocationIsFinal` | backend/src/fastsaas/tenants/service.py:1130-1222 | after a revoke nothing active stems from the share and no accept of its token succeeds, in any later state, whether it was pending, consumed with a capability or consumed by a member |
| `Replay.LogReplaysToTable` | backend/src/fastsaas/authz/service.py:88-101 | folding the audit log from nothing gives exactly the unrevoked capabilities with their organisation and actor, at every point of every run |
| `Replay.RemoveMemberFaithful` | backend/src/fastsaas/tenants/service.py:584-616 | the single `delete member` row accounts for every capability the removal revokes |
| `Replay.AcceptShareFaithful` | backend/src/fastsaas/tenants/service.py:1075-1100 | logging a guest capability twice leaves the replay unchanged |
| `Interleaving.FinishIsAtomicIff` | backend/src/fastsaas/tenants/service.py:388-430 | the consume half of an accept, done late, equals a whole accept at that moment exactly in the stated cases, and it changes something exactly when it wins |
| `Interleaving.InterleavedIsSerial` | backend/src/fastsaas/tenants/service.py:388-430 | every run with interleaved accepts ends in a state that a run of whole requests reaches |
| `Interleaving.InterleavedKeepsInv` | backend/src/fastsaas/tenants/service.py:366-489 | the fan-out stays exact while accepts interleave |
| `Interleaving.InvitationsAreSingleUse` | backend/src/fastsaas/tenants/service.py:407-430 | of any number of interleaved accepts of one token at most one creates a membership, and then the token is spent |
| `Interleaving.ConcludeIsAccept` | backend/src/fastsaas/tenants/service.py:1004-1053 | concluding a consumed share equals the whole accept at that moment; it commits exactly when project and organisation are live, and otherwise leaves nothing |
| `Interleaving.ClaimGrantedIff` | backend/src/fastsaas/tenants/service.py:992-1003 | the conditional consume takes exactly an unspent share in time that no other accept holds, and commits nothing yet |
| `Interleaving.SharesAreRedeemedOnce` | backend/src/fastsaas/tenants/service.py:992-1053 | of any number of interleaved accepts of one share at most one succeeds, and then it is spent |
| `Interleaving.FailedShareAcceptsLeaveTheToken` | backend/src/fastsaas/tenants/service.py:1004-1011 | an accept that consumes and rolls back changes nothing, frees the row, and the next accept in time gets it |
| `Interleaving.SharesAreSingleUse` | backend/src/fastsaas/tenants/service.py:992-1053 | in every state interleaved accepts reach, no two capability rows stem from one share |
| `Interleaving.LateConsumeOutlivesOrg` | backend/src/fastsaas/tenants/service.py:388-440 | a consume that comes after the organisation's deletion writes a member and an active capability into it |
| `Interleaving.LookupHoldsIff` | backend/src/fastsaas/tenants/service.py:388-411 | the lookup goes on to a consume exactly for an unspent invitation in time, its organisation live and the caller no member; otherwise the accept changes nothing |
| `Interleaving.HalvesAreTheAccept` | backend/src/fastsaas/tenants/service.py:388-489 | with nothing in between the two halves of an invitation accept are the accept |
| `Interleaving.ShareHalvesAreTheAccept` | backend/src/fastsaas/tenants/service.py:992-1053 | and so are those of a share accept |
| `Witnesses.CalmIsNeeded` | backend/src/fastsaas/tenants/service.py:388-440 | a run from empty with one request between lookup and consume, the deletion, that ends so |
| `Guests.OrganisationChecksReadRoles` | backend/src/fastsaas/authz/check.py:72-92 | a check on an organisation passes exactly for members whose role carries it, in a live organisation |
| `Guests.ProjectChecksReadRoles` | backend/src/fastsaas/authz/check.py:72-92 | any check on a live project but `read` passes exactly for members whose role carries it |
| `Guests.AdminGateIsByRole` | backend/src/fastsaas/api/orgs.py:196-211 | the admin gate passes exactly owners and admins of the organisation named; turning guests away first changes nothing |
| `Guests.ProjectGateIsByRole` | backend/src/fastsaas/api/projects.py:214-300 | the gates of project deletion and sharing pass exactly owners and admins, for the live project named |
| `Guests.GuestsAreConfined` | backend/src/fastsaas/tenants/dependencies.py:75-99 | a caller resolved as guest holds only guest reads in that organisation, reads exactly the projects an unexpired one of them names, and fails every organisation check and every other project check there at any time |
| `Entrance.ResolvedIff` | backend/src/fastsaas/tenants/dependencies.py:43-101 | whom the gate resolves: members of the organisation the slug names; as guests exactly the non-members with an unended share capability there that has time left; nobody else |
| `Entrance.GuestsHoldGrants` | backend/src/fastsaas/tenants/dependencies.py:75-99 | at every point of every run the guests are exactly the non-members to whom the access specification ascribes an unexpired grant in that organisation |
| `Entrance.StrangerResolvedIff` | backend/src/fastsaas/tenants/dependencies.py:75-99 | on any table, not only those a run writes, a non-member is let in exactly by an unrevoked, unblocked and unexpired row of their own tagged with the organisation |
| `Guests.TypeWideChecksReadAnyRole` | backend/src/fastsaas/authz/service.py:268-273 | a check on an audit log, agent or service passes exactly for holders of a carrying role in some live organisation, whichever resource is asked about |
| `Outcomes.SlugsResolve` | backend/src/fastsaas/tenants/dependencies.py:53-62 | at every point of every run a slug resolves exactly to the live organisation, or live project of it, that carries it |
| `Guests.CanRead` | backend/src/fastsaas/api/projects.py:128-156 | the listing's own reading of a capability list finds a row exactly when some row matches a read of the project |
| `Guests.ListProjects` | backend/src/fastsaas/api/projects.py:124-156 | members get the live projects; guests get exactly those for which `can` allows reading, each once, in creation order |
| `Provenance.AdmittedIff` | backend/src/fastsaas/tenants/service.py:366-489 | a membership row appears exactly when its actor creates the organisation, redeems in time an unspent invitation naming that role, or is given the role by an owner or admin without leaving the organisation ownerless |
| `Provenance.DismissedIff` | backend/src/fastsaas/tenants/service.py:565-616 | a membership row disappears exactly when an owner or admin removes the actor or changes the role, and an owner would remain |
| `Provenance.EveryMemberWasAdmitted` | backend/src/fastsaas/tenants/service.py:432-440 | every membership at any point of a run goes back to an earlier request that admits it |
| `Provenance.EveryInvitationWasIssued` | backend/src/fastsaas/tenants/service.py:303-364 | every invitation was written by someone then owner or admin of its organisation, for a role below owner, for 7 days |
| `Provenance.EveryShareWasOffered` | backend/src/fastsaas/tenants/service.py:921-970 | every share was written by someone then owner or admin of the project's organisation, for at most 30 days |
| `Provenance.EveryGuestWasInvited` | backend/src/fastsaas/tenants/service.py:1037-1053 | every guest capability goes back to one redemption in time by the actor it names, a non-member then, and before that to an owner's or admin's offer of that project, whose expiry it carries |
| `Provenance.GuardIsSpare` | backend/src/fastsaas/tenants/service.py:680-688 | counting owners decides exactly whether another owner exists |
| `Directory.OrgEndsIff` | backend/src/fastsaas/api/orgs.py:120-151 | an organisation stops being live exactly when an owner or admin deletes it |
| `Directory.ProjectStartsIff` | backend/src/fastsaas/tenants/service.py:715-800 | a project appears exactly when an owner or admin creates it under a slug no project of the organisation ever had |
| `Directory.ProjectEndsIff` | backend/src/fastsaas/api/projects.py:214-242 | a project stops being live exactly when an owner or admin of its organisation deletes it |
| `Directory.InvitationStartsIff` | backend/src/fastsaas/tenants/service.py:303-364 | an invitation appears exactly when an owner or admin invites a non-member to a role below owner, with its full row |
| `Directory.ShareStartsIff` | backend/src/fastsaas/tenants/service.py:921-970 | a share appears exactly when an owner or admin shares a live project within the longest ttl, with its full row |
| `Directory.ShareSpentIff` | backend/src/fastsaas/tenants/service.py:992-1035 | an unspent share is spent exactly by an accept in time while project and organisation are live, or by a revoke |
| `Directory.GuestStartsIff` | backend/src/fastsaas/tenants/service.py:1013-1053 | an accept mints the guest row exactly when it spends the share and the caller is no member |
| `Directory.GuestEndsIff` | backend/src/fastsaas/tenants/service.py:1144-1188 | an active guest row ends exactly by revoking its share, removing its actor as a member, or deleting its organisation |
| `Tokens.InviteNamesItsRow` | backend/src/fastsaas/tenants/service.py:303-365 | an invite returns the token of the invitation it writes, none that was there before, good for a week in that role; each refusal has its exact condition and changes nothing |
| `Tokens.InviteSucceedsIff` | backend/src/fastsaas/tenants/service.py:319-333 | it succeeds exactly for a role below owner and an address that is no member's |
| `Tokens.AcceptInviteOutcome` | backend/src/fastsaas/tenants/service.py:388-489 | accepting succeeds exactly while the invitation is unspent, in time and its organisation live; a newcomer joins in its role and spends it, a member is told the role he has and spends nothing |
| `Tokens.InvitationRoundTrip` | backend/src/fastsaas/tenants/service.py:303-489 | at any later point of the run the token an invite returned admits to that organisation in that role, exactly until it is spent, a week has passed or the organisation is gone |
| `Tokens.ShareNamesItsRow` | backend/src/fastsaas/tenants/service.py:921-970 | a share returns the token of the row it writes, for the time asked, 14 days by default and 30 at most |
| `Tokens.AcceptShareOutcome` | backend/src/fastsaas/tenants/service.py:972-1102 | accepting succeeds exactly while the share is unspent, in time, its project and organisation live; a non-member gets exactly the one capability row, a member none |
| `Tokens.ShareRoundTrip` | backend/src/fastsaas/tenants/service.py:921-1102 | the same round trip for a share: the project offered, for as long as was asked |
| `Outcomes.CreateOrgOutcome` | backend/src/fastsaas/tenants/service.py:53-123 | refused exactly for a slug in use, deleted organisations included; otherwise its id and rows |
| `Outcomes.DeleteOrgOutcome` | backend/src/fastsaas/tenants/service.py:179-235 | refused exactly for an organisation not live; otherwise marked with the time of the request |
| `Outcomes.ChangeRoleOutcome` | backend/src/fastsaas/tenants/service.py:493-563 | not found exactly for a non-member, last owner exactly when an owner without another is given another role; the same role changes nothing |
| `Outcomes.RemoveMemberOutcome` | backend/src/fastsaas/tenants/service.py:565-616 | not found exactly for a non-member, last owner exactly for an owner without another |
| `Outcomes.CreateProjectOutcome` | backend/src/fastsaas/tenants/service.py:715-800 | refused exactly for a slug some project of the organisation has or had |
| `Outcomes.DeleteProjectOutcome` | backend/src/fastsaas/tenants/service.py:863-893 | refused exactly for a project not live; otherwise marked with the time, capabilities left |
| `Outcomes.RevokeShareOutcome` | backend/src/fastsaas/tenants/service.py:1130-1222 | refused exactly for an unknown share; a pending one is spent by the revoker, one consumed without a capability is left alone |
| `Outcomes.EndsAreRecorded` | backend/src/fastsaas/tenants/service.py:209-223 | a capability that ends carries the time of the request and, unless a role changed, who asked; nothing else of it changes |
| `Outcomes.GrantorsAreRecorded` | backend/src/fastsaas/tenants/service.py:441-458 | a new capability names as grantor the caller, or whoever wrote the invitation or the share redeemed |
| `Journal.LoggedIffDue` | backend/src/fastsaas/audit/service.py:78-128 | at every request an entry about an organisation, membership, invitation, project or share is written exactly when that change happens to the tables |
| `Journal.EntriesAreSingle` | backend/src/fastsaas/audit/service.py:78-128 | and never twice by one request |
| `Journal.LogDescribesCapabilities` | backend/src/fastsaas/authz/service.py:246-257 | at every point of every run each creation entry describes its capability column by column, and each capability has one |
| `Journal.RevocationsAreSigned` | backend/src/fastsaas/authz/service.py:128-148 | a revocation entry carries the time and the actor of its request |
| `AuditScope.ServeWritesFor` | backend/src/fastsaas/audit/service.py:78-128 | whatever the state, every audit row a call writes is of the organisation the call is about, and rows already there stay |
| `AuditScope.RevokeIsLoggedIff` | backend/src/fastsaas/tenants/service.py:1144-1222 | a revoke is logged exactly for a share that is pending or was consumed with a capability, revoked already or not |
| `Isolation.UntouchedIff` | backend/src/fastsaas/tenants/dependencies.py:43-101 | a request that neither names an organisation nor redeems a token of it changes nothing of it, tables or log, except exactly when it revokes a share of it, pending or consumed with a capability, through another project the caller may share |
| `Isolation.SameHoldingsIff` | backend/src/fastsaas/tenants/dependencies.py:43-101 | its liveness, roles, projects, invitations, shares and capabilities stay as they were except exactly when the share so revoked is still open |
| `Isolation.SameLogIff` | backend/src/fastsaas/tenants/service.py:1170-1222 | its part of the log gains no row except exactly in the wider case |
| `Isolation.EndedShareIsLoggedAgain` | backend/src/fastsaas/tenants/service.py:1170-1222 | revoking a share already ended adds exactly two rows to its organisation's log, changes nothing else, and leaves the request as possible as before |
| `Isolation.TenantsAreIsolated` | backend/src/fastsaas/tenants/dependencies.py:43-101 | over any stretch of any run without such requests nothing of the organisation changes, tables or log |
| `Isolation.HoldingsAreIsolated` | backend/src/fastsaas/tenants/dependencies.py:43-101 | its tables do not change over any stretch whose only such requests revoke shares already ended |
| `Isolation.SameHoldingsKeepRights` | backend/src/fastsaas/authz/check.py:72-116 | and then every check on the organisation and its projects, deleted ones included, answers as before for everyone |
| `Isolation.RevokerMayShareIff` | backend/src/fastsaas/api/projects.py:333-372 | at any point of any run, a caller the revoke gate lets through may share the share's own project exactly when that project is live and belongs to the gate's organisation or to another live one the caller rules |
| `Witnesses.OutsiderEndsGuest` | backend/src/fastsaas/api/projects.py:333-372 | a run from empty in which the owner of one organisation, no member of the other, ends a guest's access there |
| `Witnesses.OutsiderWritesLog` | backend/src/fastsaas/tenants/service.py:1170-1222 | that run continued: the same request again changes no table of the other organisation and writes two rows into its log |
| `Authz.LoadActive` | backend/src/fastsaas/authz/check.py:95-116 | the rows loaded are exactly the actor's own, neither revoked nor blocked |
| `Tables.LiveProjects` | backend/src/fastsaas/tenants/service.py:802-813 | exactly the organisation's projects that are not deleted, ascending |
| `TenantStore.Store.MintBundle` | backend/src/fastsaas/authz/service.py:36-102 | fails without a trace exactly when a scope is not covered; otherwise adds exactly the bundle's rows, one log row each, and returns their consecutive ids |
| `TenantStore.Store.InsertBundle` | backend/src/fastsaas/authz/service.py:68-86 | the nested loop adds the rows of each template over its targets, in order |
| `TenantStore.Store.LogCreated` | backend/src/fastsaas/authz/service.py:88-101 | one `create capability` row per id, in order |
| `TenantStore.Store.RevokeBundle` | backend/src/fastsaas/authz/service.py:105-149 | revokes exactly the actor's active rows of the bundle in the organisation, logs each, returns their number |
| `TenantStore.Store.MintCapability` | backend/src/fastsaas/authz/service.py:152-204 | adds one row and its log row |
| `TenantStore.Store.CreateOrg` | backend/src/fastsaas/tenants/service.py:53-123 | state and result as specified, including a taken slug |
| `TenantStore.Store.SoftDeleteOrg` | backend/src/fastsaas/tenants/service.py:179-235 | marks the organisation, revokes every active row tagged with it, logs one row |
| `TenantStore.Store.Invite` | backend/src/fastsaas/tenants/service.py:303-365 | refuses the owner role and existing members, otherwise adds one invitation and returns its token |
| `TenantStore.Store.AcceptInvite` | backend/src/fastsaas/tenants/service.py:366-489 | consumes the token, adds the member and mints the bundle over the live projects; an existing member keeps the role and leaves the token unconsumed; failures change nothing |
| `TenantStore.Store.CountOwnersOf` | backend/src/fastsaas/tenants/service.py:680-688 | the number of owner rows of the organisation |
| `TenantStore.Store.ChangeRole` | backend/src/fastsaas/tenants/service.py:493-563 | revoke, mint and update in that order; the same role is a no-op, the last owner is refused |
| `TenantStore.Store.RemoveMember` | backend/src/fastsaas/tenants/service.py:565-616 | deletes the member row and revokes every active row of the actor tagged with the organisation, guest rows included; the last owner is refused |
| `TenantStore.Store.CreateProject` | backend/src/fastsaas/tenants/service.py:715-800 | adds the project and every member's rows for it |
| `TenantStore.Store.MintForMember` | backend/src/fastsaas/tenants/service.py:756-773 | mints one member's `all_in_org` project templates for the new project |
| `TenantStore.Store.SoftDeleteProject` | backend/src/fastsaas/tenants/service.py:863-893 | marks the project and leaves its capability rows in place |
| `TenantStore.Store.ShareProject` | backend/src/fastsaas/tenants/service.py:921-970 | refuses a ttl over 30 days, otherwise adds one share |
| `TenantStore.Store.AcceptShare` | backend/src/fastsaas/tenants/service.py:972-1102 | consumes first and checks project and organisation after, undoing the consume when they fail; a member gets no capability, anyone else exactly one, logged twice |
| `TenantStore.Store.RevokeShare` | backend/src/fastsaas/tenants/service.py:1130-1222 | a pending share is consumed, a consumed one has its capability revoked once, and one consumed without a capability is left alone |
| `Families.RedisStore.Start` | backend/src/fastsaas/identity/auth/refresh.py:102-115 | the family and its index entry, both good for 30 days from now; an expired index starts afresh |
| `Families.RedisStore.RotateScript` | backend/src/fastsaas/identity/auth/refresh.py:64-84 | unknown changes nothing; a mismatch deletes the family and its index entry; a match replaces the jti and renews the family's deadline only |
| `Families.RedisStore.Revoke` | backend/src/fastsaas/identity/auth/refresh.py:138-144 | the family and its index entry are gone, and nothing else is |
| `Families.RedisStore.RevokeAllForActor` | backend/src/fastsaas/identity/auth/refresh.py:147-159 | every listed family and the index are gone, nothing else is; the result is the number listed |
| `Rotations.RedemptionsFollowMints` | backend/src/fastsaas/identity/auth/refresh.py:64-84 | over every run the tokens accepted in a family are its mints in order, one behind, and only the newest mint is current |
| `Rotations.RedeemsIffNewest` | backend/src/fastsaas/identity/auth/refresh.py:118-135 | a token is accepted exactly when its family is live and it is the newest one issued in it |
| `Rotations.RedeemedAtMostOnce` | backend/src/fastsaas/identity/auth/refresh.py:118-135 | with fresh jtis no token is accepted twice, and acceptance follows mint order |
| `Rotations.EndIsFinal` | backend/src/fastsaas/identity/auth/refresh.py:138-159 | after a failed presentation, a logout or a reset that lists it, every later token of the family is unknown |
| `Rotations.StalePresentationEndsFamily` | backend/src/fastsaas/identity/auth/refresh.py:76-80 | presenting a superseded token fails, and no token of the family is ever accepted again |
| `SessionSpec.RunsAreTold` | backend/src/fastsaas/identity/auth/refresh.py:64-159 | over every run the hashes are exactly the sessions of a specification without Redis, told by the commands alone: owner, newest token, last use, cover |
| `SessionSpec.AnswersAreTold` | backend/src/fastsaas/identity/auth/refresh.py:64-84 | the answer to any token is read off the session it names |
| `SessionSpec.ResetsAreTold` | backend/src/fastsaas/identity/auth/refresh.py:147-159 | a reset ends exactly the actor's covered sessions, leaves all others as live as they were, and returns the number found |
| `SessionSpec.LiveIffUnended` | backend/src/fastsaas/identity/auth/refresh.py:102-159 | a family is live exactly when it was started, no failed token, logout or reset that lists it came since, and it was last used less than 30 days ago |
| `SessionSpec.OtherIndexesStay` | backend/src/fastsaas/identity/auth/refresh.py:102-159 | no command touches another actor's index |
| `IndexCover.RunsKeepIndex` | backend/src/fastsaas/identity/auth/refresh.py:102-115 | over every run an index lists a family only for its owner, with the family's cover as its deadline, and while it is live only if the family exists; a covered family is listed |
| `IndexCover.ListedWhileCovered` | backend/src/fastsaas/identity/auth/refresh.py:109-114 | a family is listed exactly until its cover, counted from logins and not from rotations, runs out |
| `IndexCover.ResetMissesIffUncovered` | backend/src/fastsaas/identity/auth/refresh.py:147-159 | a reset leaves a live family of the actor standing exactly when its cover has run out |
| `IndexCover.ResetEndsRecentFamilies` | backend/src/fastsaas/identity/service.py:277-298 | a password reset ends every family the actor started within the last 30 days |
| `IndexCover.RefreshedFamilyOutlivesReset` | backend/src/fastsaas/identity/auth/refresh.py:81-83 | a concrete run in which a session refreshed on day 29 survives a reset on day 31 |
| `IndexCover.ResetCountIsExactIff` | backend/src/fastsaas/identity/auth/refresh.py:147-159 | the count is never below the sessions ended, and equals them exactly when every listed family was started or rotated within the last 30 days |
| `IndexCover.ResetOvercounts` | backend/src/fastsaas/identity/auth/refresh.py:147-159 | two logins twenty days apart: on day 35 the reset reports two and ends one |
| `Sessions.RefreshFlow.RefreshAccessToken` | frontend/src/features/auth/lib/refreshFlow.ts:31-38 | a caller joins the request in flight, or starts the only one |
| `Sessions.RefreshFlow.BootRefresh` | frontend/src/routes/__root.tsx:23-32 | once per page, and only without an access token |
| `Sessions.RefreshFlow.SettleRefresh` | frontend/src/features/auth/lib/refreshFlow.ts:31-55 | the variable is cleared and every waiting caller resumes with the one result: a token obtained is stored, without one a waiting 401 empties the store |
| `Sessions.NextKeepsSound` | backend/src/fastsaas/api/auth.py:160-213 | each step of tab, network, server or other clients keeps every token the tab holds or awaits newest in its family, or the family gone |
| `Sessions.NeverReportsReuse` | frontend/src/features/auth/lib/refreshFlow.ts:12-38 | over every orderly interleaving the tab never makes the server report reuse, and with no answered refresh outstanding its cookie is newest or its family is gone |
| `Sessions.RoundTripRecovers` | backend/src/fastsaas/identity/service.py:301-328 | with nothing in flight and a live family one refresh succeeds, installs the rotated cookie and access token, and renews the session for 30 days |
| `Sessions.SettlingStores` | frontend/src/features/auth/lib/refreshFlow.ts:41-55 | whoever waited, a token obtained is stored; with none, the store is emptied if a 401 waited and unchanged if only boots did |
| `Sessions.BootSignsIn` | frontend/src/routes/__root.tsx:23-32 | a freshly loaded page with a live cookie is signed in by its boot refresh, with the cookie rotated |
| `Sessions.BootAsksOnce` | frontend/src/routes/__root.tsx:23-32 | a page asks once, and only without an access token |
| `Sessions.JoiningStartsOne` | frontend/src/features/auth/lib/refreshFlow.ts:31-38 | a caller who finds a request in flight waits for it and starts none |
| `Sessions.StepsKeepAwaited` | frontend/src/features/auth/lib/refreshFlow.ts:31-38 | through every step a request is in flight exactly while somebody waits for it |
| `Sessions.LoginSignsIn` | backend/src/fastsaas/api/auth.py:160-171 | a delivered login leaves a newest token of a new live family in the cookie, its access token in the store, and other families alone |
| `Sessions.LogoutSignsOut` | backend/src/fastsaas/api/auth.py:174-183 | a delivered logout ends the cookie's family and no other, and empties cookie and store |
| `Sessions.UndecodedIsRefused` | backend/src/fastsaas/api/auth.py:193-211 | a missing or undecodable cookie is refused before the store is touched, and stays |
| `Sessions.SpentCookieReportsReuse` | backend/src/fastsaas/api/auth.py:186-213 | a superseded cookie of a live family is reported as reuse when used, and ends the session |
| `Sessions.LostResponseReportsReuse` | frontend/src/features/auth/lib/refreshFlow.ts:17-26 | from any sound state, losing one refresh response makes the next refresh report reuse |
| `Sessions.DisabledActorReportsReuse` | backend/src/fastsaas/identity/service.py:312-320 | rotation precedes the actor check, so a disabled actor's next refresh reports reuse |
| `Sessions.RefusedRefreshKeepsTheCookie` | backend/src/fastsaas/api/auth.py:204-213 | a refused refresh whose answer does not clear the cookie leaves the tab with a token of an ended family and no access token |
| `Sessions.ClearingRefusalSignsOut` | backend/src/fastsaas/api/auth.py:204-213 | a refused refresh whose answer does clear the cookie leaves no cookie, no access token and a family that is not live |
| `Sessions.OverUntilLogin` | backend/src/fastsaas/api/auth.py:186-213 | from then on, until a login is delivered and whatever else happens, the family stays gone and every refresh is refused, reports no reuse and changes nothing |
| `Sessions.DeadCookieStays` | backend/src/fastsaas/api/auth.py:204-213 | unless an answer clears it or a logout is delivered, the dead cookie stays and every refresh sends it |
| `Redaction.OutsideMasksNothingMoves` | backend/src/fastsaas/audit/redact.py:37-53 | along a path without denied keys the redacted tree has the same keys, lengths and leaves |
| `Redaction.DeniedKeysShowOnlyTheMask` | backend/src/fastsaas/audit/redact.py:46-50 | at a denied key, at any depth, there is the literal and nothing below it, whatever was there |
| `Redaction.MaskedIffUnchanged` | backend/src/fastsaas/audit/redact.py:37-53 | redaction leaves a tree alone exactly when every denied key in it carries the literal |
| `Redaction.RedactionMasks` | backend/src/fastsaas/audit/redact.py:37-53 | a redacted tree is masked, and redacting it again changes nothing |
| `Redaction.MasksCompose` | backend/src/fastsaas/audit/redact.py:37-53 | redacting with A and then B is redacting with the union |
| `Redaction.DiffsAreProtected` | backend/src/fastsaas/audit/redact.py:56-69 | a diff has exactly its two sides, masked for the caller's keys and always for the global ones |
| `Redaction.SidesSurvive` | backend/src/fastsaas/audit/redact.py:56-69 | on both sides of a diff every path without denied keys leads somewhere exactly when it did before, to the same keys, length or leaf |
| `Redaction.SidesAreMasked` | backend/src/fastsaas/audit/redact.py:23-53 | on both sides each of the six global keys and each of the caller's shows the literal and nothing below, at any depth |
| `Redaction.AbsentSidesAreEmpty` | backend/src/fastsaas/audit/redact.py:66-69 | a side that is missing, null or otherwise falsy is the empty object |
| `Redaction.DiffRedactionsCompose` | backend/src/fastsaas/audit/redact.py:56-69 | the same composition and idempotence for whole diffs, with missing and falsy sides defaulting to empty |
| `Scrub.AuditLog.EraseFields` | backend/src/fastsaas/audit/scrub.py:114-128 | the nested `jsonb_set` calls, one field after another |
| `Scrub.AuditLog.Update` | backend/src/fastsaas/audit/scrub.py:169-177 | rewrites exactly the rows the filter and the unscrubbed condition select, and counts them |
| `Scrub.AuditLog.Count` | backend/src/fastsaas/audit/scrub.py:161-167 | counts the same rows and changes none |
| `Scrub.AuditLog.Scrub` | backend/src/fastsaas/audit/scrub.py:131-196 | an empty filter is refused, a dry run only counts, a wet run rewrites and appends one meta row, and without a request context nothing is kept |
| `ScrubLaws.EraseIsPointwise` | backend/src/fastsaas/audit/scrub.py:114-128 | the four keys carry the sentinel where present, absent keys stay absent, other keys keep their values |
| `ScrubLaws.HitsIffChanged` | backend/src/fastsaas/audit/scrub.py:103-111 | a row is selected exactly when the update changes it; only its metadata changes, never rows of other organisations |
| `ScrubLaws.HitsIffSelected` | backend/src/fastsaas/audit/scrub.py:84-111 | which rows are selected, column by column and key by key |
| `ScrubLaws.RefusedIff` | backend/src/fastsaas/audit/scrub.py:66-69 | a call is refused exactly for a filter without a field, an empty address counting as none, or, wet, without a request context; then nothing changes |
| `ScrubLaws.MetaRowSays` | backend/src/fastsaas/audit/scrub.py:179-195 | who, when, what and on which request the meta row records |
| `ScrubLaws.MetaDiffSays` | backend/src/fastsaas/audit/scrub.py:186-194 | its diff is empty before, and after it the filter as given and the count, unmasked |
| `ScrubLaws.FilterSays` | backend/src/fastsaas/audit/scrub.py:186-191 | the filter recorded has exactly the fields that were set, with their values |
| `ScrubLaws.MetadataIsBuilt` | backend/src/fastsaas/audit/service.py:61-75 | metadata is the request's, the organisation stamped unless named already, and the caller's own on top |
| `ScrubLaws.CountIsRowsChanged` | backend/src/fastsaas/audit/scrub.py:161-177 | the count is the number of rows whose metadata changes |
| `ScrubLaws.DryRunForetells` | backend/src/fastsaas/audit/scrub.py:161-196 | a dry run reports what the wet run then reports and changes |
| `ScrubLaws.RerunTouchesOnlyTheMetaRow` | backend/src/fastsaas/audit/scrub.py:152-196 | a second run changes no earlier row and reports 1 or 0 as it does or does not select the first run's meta row |
| `ScrubLaws.MetaRowIsHitIffMatched` | backend/src/fastsaas/audit/service.py:61-75 | the meta row is selected exactly when the request that ran the scrub carried something to erase and fits the filter |
| `ScrubLaws.RerunReportsOne` | backend/src/fastsaas/audit/scrub.py:152-196 | a concrete second run that reports 1 |
| `ScrubLaws.ScrubsComposeAsOr` | backend/src/fastsaas/audit/scrub.py:84-125 | any sequence of scrubs equals one pass that erases the rows some scrub selects as they stood at the start, for arbitrary JSON values |
| `ScrubLaws.ScrubOrderIsIrrelevant` | backend/src/fastsaas/audit/scrub.py:84-125 | scrubs in any order give the same rows and the same total count |
| `ScrubLaws.CountsAddUp` | backend/src/fastsaas/audit/scrub.py:169-177 | the counts of a sequence add up to the distinct rows changed |
| `ScrubLaws.ScrubsEraseAllMatchesIff` | backend/src/fastsaas/audit/scrub.py:103-111 | the sequence erases every row its filters match exactly when no matched row holds only nulls |
| `ScrubLaws.StringRowsFollowTheFilters` | backend/src/fastsaas/audit/scrub.py:84-125 | with string-valued personal data, any sequence of scrubs erases exactly the rows its filters match |
| `ScrubLaws.CallsAreOnePass` | backend/src/fastsaas/audit/scrub.py:131-196 | over any run of calls, dry, refused, failed or wet, the rows there at the start undergo one such pass and the log grows by one row per effective call |
| `ScrubLaws.CallsKeepColumns` | backend/src/fastsaas/audit/scrub.py:169-177 | no run of calls changes any column but the metadata |
| `ScrubLaws.AddressStaysInTheDiff` | backend/src/fastsaas/audit/scrub.py:179-195 | the address a scrub filters by stands in its meta row's diff after every later run of calls, and a scrub by anything else records none |

## Left out

- The `platform` branch of `can`, `revoke_capability`, theme and project updates, and the other listings: single-branch code beside the state machine.
- Access to audit logs, agents and services: their rows name no resource and apply to the type as a whole, so there is no isolation to state; their fan-out is covered by `Safety.ExactFanOut`.
- Row-level security, HTTP, request parsing, e-mail, templates and the database itself: only primary and unique keys are kept, as invariants.
- Slug syntax and case folding, names, descriptions, e-mail addresses and themes: data no branch of the modelled code depends on.
- Metadata, intent and timestamps of audit rows in the tenancy part: `Tables.AuditRow` keeps action, entity, organisation and the capability part of the diff, which is what a replay reads.
- Database races other than accept against accept: transactions are assumed serialised.
- Cryptography: signatures, password hashes, PKCE and OpenID Connect.
- Magic links, registration and e-mail verification: their logins are covered as logins, their tokens are not modelled.
- Several tabs sharing one cookie: the single refresh in flight is per tab.
- Reloading a page before its refresh request is answered: `Sessions.Next` drops the request; `Sessions.Orderly` excludes the case.
- Rendering of identifiers, times and JSON numbers: identifiers print as decimals, times and numbers are integers, and the jsonb text of a value that is neither null nor a string is held as that text.
- Mapper-event audit rows (`_record_via_connection`): they depend on attribute history kept by the ORM.
- TenantStore.Store.MintBundle: does not model an unknown bundle name (names are a closed type), extra metadata (no caller passes any) or a missing audit context (every tenancy request has one).
- TenantStore.Store.Invite: takes the member lookup by e-mail address as an argument, because addresses are not modelled.
- Sessions.RefreshFlow.SettleRefresh: does not model the redirect to the login page, which is a page load and so the step `Reload`.
- Revoking a share while an accept holds its row: the revoke waits and then sees the outcome; the source's read before the wait is one of the races left out.
