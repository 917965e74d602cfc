# HBSE verification

A Dafny model of HBSE's secret vault, with proofs of what it guarantees. HBSE keeps secrets as
versioned, envelope-encrypted records in SQLite tables; consumers reach them through access tickets
issued under policies; secrets are replaced through rotation jobs; changes, deliveries and denials are
written to a hash-chained audit log; and a broker holds an unlocked session in front of the vault.

Run `dafny verify dfyconfig.toml`.

## How it is modelled

- **Cryptography is symbolic.** Keys, digests, MACs, seals and wrapped keys are constructors of
  datatypes (`Keys.Key`, `Envelope.Digest`, `Envelope.Sealed`, `Audit.Hash`, `Tickets.TicketMac`), so two
  of them are equal only if built from equal parts. Nothing is assumed. Canonical JSON is the value.
- **Tables are maps by primary key** (`Store.Tables`), and a write is a value (`Store.Effect`) with its
  meaning `Store.Do`. `Store.SqliteVaultStore` is the store as a class; `Vault.LocalVault` makes the
  reads and writes of each operation one by one on such a store and is proved to do what the function
  `Operations.Exec` says.
- **One set of decisions, two granularities.** `Operations` says what each operation decides from what
  it read: the writes, in order, and the reply. `Exec` runs them at once. In `Interleaving` any number of
  processes perform them one statement at a time, in any order; a process may also stop for good
  between two statements. `Undisturbed.AloneIsExec` shows the two agree when nobody interferes.
- **One invariant under both.** `Invariants.TablesOk` and the growth relation `Invariants.Grows` are kept
  by every write that `EffectOk` admits, and `Soundness` shows that every planned write is admitted,
  even when planned from values read in an earlier state.
- **New identifiers do not repeat.** UUIDs are parameters, and inserting a row under an identifier
  already in use is excluded. Clock readings and random bytes are parameters too.

What then follows: a run of whole operations refines a vault of plain values (`Refinement`) and keeps
its redaction fingerprints in step (`Fingerprints`); every ticket goes back to a granted request, and
consuming gives what reading would (`Provenance`); when ticket operations succeed, what they change and
what they log is exact (`Outcomes`); and so is when a stored value lasts (`Lasting`). Use counts,
revocation, version numbering and the audit chain hold under every interleaving (`Interleaving`), and so
do the bound on delivered plaintexts (`Delivery`), what remains of the tracing of tickets (`Lineage`), and
the exact conditions for a finished rotation job to stay finished (`Finality`) and for a stored value to
be kept (`Durability`). `Race` and `RenewalRace` construct runs in which overlapping operations do harm.
`Writes` and `Progress` say what operations can write and that pending writes can be carried out.
Beside these stand the broker session with its gateway thread (`Broker`) and what it obtains from the
vault (`Brokered`), Base32 and TOTP (`Mfa`), the mnemonic phrase (`Recovery`), the redaction of known
secrets (`Redaction`, `RedactionLimits`), policies (`Policy`) and key labels (`Keys`).

## What does not hold

Each of these is proved to fail by a lemma with a concrete or general counterexample; a second lemma
gives the exact condition.

- Redaction does not remove every secret. It fails for `[`, which occurs in the marker, and for `]x`, which
  does not (`RedactionLimits.OpeningBracketSurvives`, `RedactionLimits.ClosingBracketSurvives`). It works for all
  texts exactly if no encoded spelling of the secret occurs in the marker and no marker laid over the literal
  secret, inside it or across an end, spells it again by a text in which the secret is the only spelling
  (`RedactionLimits.RedactionPromise`, for every secret).
- A version is not write-once: a value put while a rotation is staged is replaced by its promotion
  (`Lasting.PutReplaced`). In whole operations only promoting a verified job onto that version changes a stored
  value (`Lasting.ValueChanges`), so a value lasts through all serial continuations exactly if no open job holds
  another value for its version (`Lasting.LastsExact`, `Lasting.PutLasts`).
- When operations overlap, two puts can take the same version (`Durability.PutCanBeLost`). In a reachable world a
  stored value is kept in all continuations exactly if no process has yet to write another value at its version
  and no open job, stored or still to be stored, holds one (`Durability.KeptExact`).
- A promoted job need not stay promoted: from every new vault some interleaving loses a promotion
  (`Race.PromotionCanBeLost`), and the promoted version stays active then (`Interleaving.RollbackOverPromotion`).
  In a reachable world it stays promoted in all continuations exactly if no process has yet to write that job
  with another status (`Finality.FinalExact`); in serial runs it always does (`Refinement.JobLifecycle`).
- A code refused during a re-unlock leaves the broker unlocked, without its passphrase, exactly if it was
  unlocked and had not idled out (`Broker.FailedMfaKeepsUnlocked`). An unlocked broker has lost its passphrase in
  no other way (`Broker.UnlockedSince`).
- A gateway request in flight survives a lock (`Broker.LockMissesGateway`). It carries the session it copied
  (`Broker.InFlightExact`), and a locked broker has a last activity exactly if such a request ended
  successfully since the lock (`Broker.ActivityWhileLocked`).
- When operations overlap, a renewed ticket may go back to no grant at all: the policy is stored anew between
  the renewal's checks and its plan (`RenewalRace.ProvenanceCanBeLost`). In every run a renewed ticket goes back to
  a grant exactly if the policy then read is one that granted the old ticket's context (`Lineage.RenewalExact`); context, session and policy id
  always remain those of a grant (`Lineage.TicketsDescend`).

## Model

| member | source | states |
|---|---|---|
| Interleaving.NextKeeps | hbse/src/vault.rs:443-1141 | one step of any process, from any world with sound tables, keeps tables, readings and use counts sound; tables only grow, swap counts never fall and stand still once a ticket is revoked |
| Interleaving.UsesBounded | hbse/src/store.rs:374-394 | in every interleaving, successful compare-and-swaps of a ticket id never exceed its `max_uses`; while unrevoked, uses left plus swaps equal `max_uses` |
| Delivery.DeliveriesBounded | hbse/src/vault.rs:842-903 | in every interleaving the plaintexts handed out to consumes of a ticket never outnumber its `max_uses` |
| Delivery.StepFaithful | hbse/src/vault.rs:842-861 | a consume neither writes nor delivers before its swap has succeeded, and the ticket it swaps is the one it was asked for |
| Interleaving.NoAba | hbse/src/store.rs:374-394 | an unrevoked ticket found value-equal later was not consumed in between, so comparing whole rows suffices |
| Interleaving.RevocationFinal | hbse/src/vault.rs:905-955 | a revoked row stays revoked in every continuation, through stale revokes and renewals too, and is never swapped again |
| Interleaving.LateConsumeConflicts | hbse/src/vault.rs:851-861 | a consume that validated before the revocation ends in a ticket conflict without writing |
| Interleaving.VersionsGapFree | hbse/src/store.rs:204-213 | stored versions are exactly 1..n in every interleaving, n never falls, staged versions lie in 1..n+1 and ticket versions in 1..n, so the version-0 branches are never taken for issued tickets |
| Interleaving.LogAlwaysVerifies | hbse/src/store.rs:308-330 | whatever the writers and rewraps, the stored audit log passes verification under the vault's audit key and is what appending its own entries writes |
| Interleaving.RollbackOverPromotion | hbse/src/vault.rs:1070-1141 | the steps behind `Race.PromotionCanBeLost`: on any sound tables, a rollback that read a verified job and writes it after a promotion that read it too leaves the job rolled back and the promoted version active; `Finality.FinalExact` says when a reachable run can do this |
| Finality.FinalExact | hbse/src/vault.rs:1038-1141 | in every reachable world a promoted job stays promoted, and a rolled-back one rolled back, in all continuations iff no process has yet to write that job with another status |
| Finality.RunQuiet | hbse/src/vault.rs:1038-1141 | without such a pending write none arises: later operations refuse the finished job and new jobs take other ids |
| Race.PromotionCanBeLost | hbse/src/vault.rs:1070-1141 | from every new vault some interleaved run promotes a job and some continuation of it loses the promotion |
| Undisturbed.AloneIsExec | hbse/src/vault.rs:443-1141 | the statements of any operation, run without interruption, lead exactly to the tables and reply of the whole operation |
| Invariants.CreatedOk | hbse/src/vault.rs:128-160 | a vault just created has sound tables |
| Invariants.DoKeeps | hbse/src/store.rs:149-487 | every admitted write keeps the tables sound and lets them only grow |
| Invariants.EffectStaysOk | hbse/src/vault.rs:842-861 | a write planned from earlier readings stays admissible however the tables grow meanwhile |
| Invariants.VersionsExact | hbse/src/store.rs:204-213 | in sound tables the versions of a reference are exactly 1 to their number |
| Soundness.PlanOfOk | hbse/src/vault.rs:443-1141 | every write any operation plans from sound tables is admissible, and its inserts use only its own fresh identifiers |
| Writes.PlanWithin | hbse/src/vault.rs:443-1141 | whatever the tables hold, an operation writes only its own kinds of rows, as tabulated in `Writes.Writable` |
| Progress.Drain | hbse/src/vault.rs:443-1141 | a planned write of a record or job can be carried out by its process alone, unless it is a new job whose identifier is taken |
| Soundness.RevokeLoopOk | hbse/src/vault.rs:935-942 | over tickets seen in sound tables the lockdown loop never stops on a MAC mismatch and only writes revocations |
| Soundness.ExecKeeps | hbse/src/vault.rs:443-1141 | every whole operation keeps the tables sound and only lets them grow |
| Soundness.UnlockHeld | hbse/src/vault.rs:1147-1191 | unlocking yields the vault's own keys whatever the provider binding, including after rewraps |
| Refinement.ExecRefines | hbse/src/vault.rs:443-1141 | each operation changes the plain vault as its plain counterpart does and its reply shows the plain reply |
| Refinement.RunRefines | hbse/src/vault.rs:483-514 | after any serial run from creation, `get` and every other secret or rotation operation reply what the plain vault replies after the same run |
| Refinement.JobLifecycle | hbse/src/rotation.rs:55-61 | in serial runs jobs move only staged to verified to promoted, or to rolled back from staged or verified; the last two are final, failure unreachable, and a job's content never changes |
| Lasting.PutReplaced | hbse/src/vault.rs:1001-1022 | in any sound tables, a value put between start and promotion of a rotation is stored under the next version and then replaced there by the staged value |
| Lasting.ValueChanges | hbse/src/vault.rs:1070-1107 | an operation changes the value at a stored version iff the vault unlocks and it promotes a verified job of that reference and version with another value |
| Lasting.LastsExact | hbse/src/vault.rs:993-1107 | a stored value is the same after every serial continuation iff no staged or verified job holds another value for its version |
| Lasting.PutLasts | hbse/src/vault.rs:443-481 | a put value gets the next version, and lasts there iff no open rotation had reserved that version for another value |
| Durability.KeptExact | hbse/src/vault.rs:443-1141 | in every reachable world a stored value is kept in all interleaved continuations iff no process has yet to write another value at its version and no open job, stored or still to be stored, holds one |
| Durability.RunCalm | hbse/src/vault.rs:443-1141 | while nothing contests a stored value nothing comes to: new puts and rotations take later versions, status changes and promotions write back the value they read |
| Durability.PutCanBeLost | hbse/src/vault.rs:443-481 | from every new vault, without any rotation, some interleaved run stores a value that an overlapping put replaces under the same version |
| Refinement.PutMatches | hbse/src/vault.rs:443-481 | a put appends one active slot and replies its number |
| Refinement.StatusMatches | hbse/src/vault.rs:615-659 | disable and destroy change only the status of the last slot |
| Refinement.PromoteMatches | hbse/src/vault.rs:1070-1107 | promoting writes the staged value, active, at its reserved version |
| Refinement.RewrapMatches | hbse/src/vault.rs:313-362 | rewrapping changes only the provider binding, nothing readable |
| Refinement.UnrelatedMatches | hbse/src/vault.rs:672-955 | policy, ticket and configuration operations change nothing readable |
| Provenance.TicketsComeFromGrants | hbse/src/vault.rs:711-840 | in every serial run each stored ticket, through any chain of renewals, has the context, session, policy id and policy hash of an earlier request that policy granted |
| Lineage.TicketsDescend | hbse/src/vault.rs:711-840 | in every interleaved run each stored ticket has the context, session and policy id of a granted request and the hash, export flag and use count of a policy stored under that id; both are of the granting policy if only one was ever stored under it |
| Lineage.RenewalExact | hbse/src/vault.rs:805-840 | in every interleaved run a renewal past its checks plans a ticket iff a policy is stored under the id, and that ticket comes from some grant of the run iff that policy granted the old ticket's context |
| RenewalRace.ProvenanceCanBeLost | hbse/src/vault.rs:805-840 | from every new vault some interleaved run stores a renewed ticket that comes from no grant, because its policy grants nothing |
| Provenance.ConsumeIsAuthorised | hbse/src/vault.rs:842-861 | a successful consume is asked in the context of such a granted request, with a matching session, before expiry, and the granting policy itself is still stored |
| Provenance.ConsumeIsGet | hbse/src/vault.rs:842-903 | a consume either changes nothing and fails, or passes every check, spends exactly one use and returns what `get` returns in that state, at the version recorded at issue |
| Provenance.StaleForever | hbse/src/vault.rs:978-991 | once a later version is stored, the ticket is never consumed in any continuation |
| Provenance.LockdownTotal | hbse/src/vault.rs:931-955 | lockdown revokes every ticket, changes nothing else in them, and counts exactly those unrevoked before |
| Provenance.CheckedMeans | hbse/src/vault.rs:786-803 | what passing the ticket checks implies: same context, session, unexpired, policy stored with the same hash, latest version active |
| Outcomes.IssueExact | hbse/src/vault.rs:711-784 | a ticket is issued iff the vault unlocks, the latest version is active and some stored policy grants the request; it names that version and is the only row added; a policy denial is logged; other refusals change nothing |
| Outcomes.RevokeExact | hbse/src/vault.rs:905-929 | revoking succeeds iff unlocked and the id exists; it bars exactly that ticket and logs it |
| Outcomes.RenewExact | hbse/src/vault.rs:805-840 | renewing succeeds iff the ticket passes its checks; it bars the old row and adds one with the same secret, version, context, policy and session and all uses again |
| Outcomes.GetIsLogged | hbse/src/vault.rs:483-514 | a delivering `get` appends one materialization event, an inactive secret one denial event, and nothing else changes |
| Outcomes.ConsumeIsLogged | hbse/src/vault.rs:862-903 | a delivering consume appends one materialization event and changes only tickets beside it |
| Outcomes.RawExportGuarded | hbse/src/vault.rs:303-311 | a raw consume succeeds only with export enabled and, once TOTP is active, verified MFA |
| Fingerprints.SeriesPrints | hbse/src/vault.rs:464-466 | in every serial run from creation every redaction fingerprint is that of the value stored at its version, and every record but TOTP enrolments has one |
| Fingerprints.ExecPrints | hbse/src/vault.rs:1088-1093 | every operation, promotion included, keeps fingerprints in step with the records |
| Broker.BrokerState.HandleConnection | hbse/src/broker_daemon.rs:180-300 | each socket command changes the session and replies as the transition function says, `checkout`, `materialize` and `provider_http` as one access |
| Brokered.MaterializeExact | hbse/src/broker_daemon.rs:246-272 | `materialize` gives out a secret iff the session is unlocked and not idle at either reading and the vault grants the request under that session's id and MFA standing; it gives what `get` gives and writes only tickets and the log |
| Brokered.MaterializedExact | hbse/src/vault.rs:711-861 | issuing and consuming at once succeeds iff export rules, unlocking, an active latest version, and a granting policy that allows a use within its lifetime; exactly one use of the new ticket is spent |
| Brokered.NewTicketChecks | hbse/src/vault.rs:786-803 | a ticket just issued passes every check for its own request iff its policy allows a use and its lifetime, cut to milliseconds, has not ended |
| Brokered.AccessSession | hbse/src/broker_daemon.rs:232-272 | with the vault attached, `checkout` and `materialize` change the session as the access of the broker model does |
| Broker.BrokerState.ExpireIdleUnlock | hbse/src/broker_daemon.rs:800-817 | locks exactly when unlocked, a timeout is set and more than it has passed |
| Broker.BrokerState.GatewayCopy | hbse/src/broker_daemon.rs:554-567 | the gateway's first section copies the session only while unlocked |
| Broker.RunKeeps | hbse/src/broker_daemon.rs:180-300 | in all mixtures of commands and gateway sections: unlocked iff a session id, MFA only while unlocked, no passphrase while locked, last activity while unlocked |
| Broker.EndedForGood | hbse/src/broker_daemon.rs:200-227 | an ended session never returns and no access request built after its end carries it |
| Broker.EndedSessionRefused | hbse/src/tickets.rs:272-279 | no ticket bound to an ended session validates for a request built after the end |
| Broker.FailedMfaKeepsUnlocked | hbse/src/broker_daemon.rs:198-212 | after a code refused during an unlock the broker is unlocked iff it was and had not idled out; passphrase and MFA are gone, a kept session is the old one |
| Broker.UnlockedSince | hbse/src/broker_daemon.rs:194-230 | an unlocked broker is in the session of its last successful unlock and holds its passphrase unless, and only unless, a code was refused since |
| Broker.NothingBuiltWhileLocked | hbse/src/broker_daemon.rs:787-794 | from a locked state no sequence of commands and gateway sections builds an access request before an unlock opens the vault |
| Broker.LockMissesGateway | hbse/src/broker_daemon.rs:596-601 | from any unlocked session, a gateway copy taken before a lock still matches the ended session, and its end marks activity in the locked state |
| Broker.InFlightExact | hbse/src/broker_daemon.rs:554-601 | in every run the requests in flight are exactly those begun and not ended, each with the session as it was when copied |
| Broker.ActivityWhileLocked | hbse/src/broker_daemon.rs:596-601 | in every run a locked broker has a last activity iff a gateway request ended successfully since it locked |
| Audit.AuditManager.Append | hbse/src/audit.rs:74-112 | appends the event sealed to the current head |
| Audit.VerifyAuditChain | hbse/src/audit.rs:115-137 | reports the first error in order, and accepts exactly the verifying logs |
| Audit.ChainErrorExact | hbse/src/audit.rs:115-137 | the loop finds no error iff every event is right after the one before it |
| Audit.AppendVerifies | hbse/src/audit.rs:74-112 | appending keeps a log verifying |
| Audit.VerifiesExact | hbse/src/audit.rs:115-137 | a log verifies iff it is, event for event, what appending its own entries writes |
| Audit.HeadDeterminesLog | hbse/src/audit.rs:49-57 | a log whose head is some event hash of another equals that other up to there |
| Audit.LogUnique | hbse/src/audit.rs:115-137 | two verifying logs with the same head are equal |
| Envelope.EnvelopeExact | hbse/src/crypto.rs:36-180 | ciphertexts of an encryption under any other record fields and keys decrypt iff keys and every bound field are the original ones, `created_at` up to its millisecond form, and then to the plaintext |
| Envelope.StatusUnbound | hbse/src/crypto.rs:187-237 | changing the status never changes decryption |
| Envelope.MatchingSecretAadExact | hbse/src/crypto.rs:133-152 | the candidate search finds an AAD iff its time is a candidate and its hash is the stored one |
| Tickets.IssuedUsable | hbse/src/tickets.rs:115-223 | exactly when and for whom a ticket just issued validates, with millisecond rounding and the signed cast of the lifetime, and that only the issuing policy's value passes the policy check |
| Policy.DenialExact | hbse/src/policy.rs:153-269 | the chain of guards passes iff the policy grants the request clause by clause |
| Policy.HttpDenialExact | hbse/src/policy.rs:271-351 | the HTTP guards pass iff host, scheme, method, path and body size are granted |
| Policy.EvaluateExact | hbse/src/policy.rs:139-151 | allow iff some policy grants; the earliest one is named; a denial carries no policy |
| Policy.MorePoliciesAllowMore | hbse/src/policy.rs:139-151 | adding or reordering policies never denies what was allowed |
| Policy.EasingKeepsAllow | hbse/src/policy.rs:153-269 | more assurance, verified MFA, no raw export, a smaller body or an earlier time never turns allow into deny |
| Keys.KekLabelInjective | hbse/src/keys.rs:65-70 | for one vault the key-wrapping label determines secret id and version, whatever the id's characters |
| Keys.KekLabelsApart | hbse/src/keys.rs:37-58 | it never equals the metadata, audit, redaction or ticket label |
| Keys.CounterKdf | hbse/src/keys.rs:81-107 | refuses bad labels, else yields exactly the first 32-byte block over the UTF-8 bytes of that label (counter mode of NIST SP 800-108) |
| Keys.HierarchyLabelsAccepted | hbse/src/keys.rs:37-79 | every label the hierarchy builds is accepted |
| Mfa.Base32Encode | hbse/src/mfa.rs:134-153 | the 32-bit buffer loop writes the unpadded Base32 text (section 6 of RFC 4648) though high bits are shifted out |
| Mfa.Base32Decode | hbse/src/mfa.rs:155-176 | the loop reads the whole bytes of the text's bit stream, or refuses on a bad symbol or empty result |
| Mfa.Base32RoundTrip | hbse/src/mfa.rs:134-176 | decoding the encoding of any non-empty byte string gives it back |
| Mfa.Base32Length | hbse/src/mfa.rs:134-153 | n bytes give ceil(8n/5) symbols |
| Mfa.VerifyTotpCode | hbse/src/mfa.rs:70-94 | accepts exactly the codes of non-negative steps within the drift (section 5.2 of RFC 6238) |
| Mfa.GeneratedCodeShape | hbse/src/mfa.rs:96-111 | every code has exactly its number of digits; truncation stays in bounds (section 5.3 of RFC 4226) |
| Mfa.GeneratedCodeAccepted | hbse/src/mfa.rs:70-94 | a code made at t0 is accepted at every t within drift times period |
| Recovery.GenerateMnemonicPhrase | hbse/src/recovery.rs:125-140 | 18 bytes become exactly 24 six-bit words with no bit left over |
| Recovery.PhraseInjective | hbse/src/recovery.rs:125-140 | different entropy gives different phrases |
| Recovery.PhraseNormal | hbse/src/recovery.rs:142-148 | a generated phrase is already normal |
| Recovery.NormalizationCanonical | hbse/src/recovery.rs:142-148 | the normal form is lower-case and single-spaced, has the lower-cased words of the text, depends on nothing else and is a fixed point |
| Redaction.RedactKnownSecret | hbse/src/broker_daemon.rs:979-988 | replaces the representations longest first and reports whether the text changed |
| RedactionLimits.RedactionPromise | hbse/src/broker_daemon.rs:979-1011 | for every secret, redaction leaves no representation in any text iff the secret passes a finite check against the marker |
| RedactionLimits.ProbeRespells | hbse/src/broker_daemon.rs:979-995 | where the marker agrees with a word laid over it and the word is the leftmost match, one replacement spells the word again |
| RedactionLimits.RespellingCaught | hbse/src/broker_daemon.rs:979-995 | conversely, whenever a replacement leaves the word in a text, that text contains such a spelling |
| Redaction.RedactionComplete | hbse/src/broker_daemon.rs:979-995 | a representation that cannot straddle or enter the marker does not survive the replacements |
| RedactionLimits.RedactionChanges | hbse/src/broker_daemon.rs:979-995 | text without the secret is untouched; for a secret passing the check redaction is idempotent and changes a text iff it held a representation |
| Redaction.SecretBecomesMarker | hbse/src/broker_daemon.rs:996-1011 | a text that is one representation becomes the marker, because longer ones go first |
| RedactionLimits.OpeningBracketSurvives | hbse/src/broker_daemon.rs:979-1011 | the secret `[` is still found after redaction |
| RedactionLimits.ClosingBracketSurvives | hbse/src/broker_daemon.rs:979-1011 | the secret `]x`, which the marker does not contain, is still found in `]xx` after redaction |
| Redaction.PercentEncode | hbse/src/broker_daemon.rs:1025-1035 | the loop writes the percent-encoded form |
| Store.SqliteVaultStore.SaveTicketIfCurrent | hbse/src/store.rs:374-394 | the row changes iff it holds exactly the expected ticket, else a conflict |
| Store.SqliteVaultStore.AppendAuditEvent | hbse/src/store.rs:308-330 | one transaction reads the log, chains the event and inserts it; a repeated event id is refused |
| Store.SqliteVaultStore.MaxVersion | hbse/src/store.rs:204-213 | the highest stored version of a reference, or none |
| Store.SqliteVaultStore.SaveUpdatedSecretStatus | hbse/src/store.rs:255-264 | rewrites the latest row with the new status, or reports the missing secret |
| Ordering.ListByKey | hbse/src/store.rs:353-419 | rows are listed in ascending key order, each once |
| Vault.LocalVault.Init | hbse/src/vault.rs:128-160 | with a header present, refuses and changes nothing; else writes the header and its event over whatever rows there are; on an empty store this is the new vault |
| Vault.LocalVault.PutSecret | hbse/src/vault.rs:443-481 | is the whole operation `Put` |
| Vault.LocalVault.GetSecret | hbse/src/vault.rs:483-514 | is the whole operation `Get` |
| Vault.LocalVault.EnrollTotpMfa | hbse/src/vault.rs:520-558 | is the whole operation `EnrollTotp` |
| Vault.LocalVault.ChangeStatus | hbse/src/vault.rs:615-659 | writes the new status and the event, or refuses |
| Vault.LocalVault.SaveAccessPolicy | hbse/src/vault.rs:672-690 | is the whole operation `AddPolicy` |
| Vault.LocalVault.IssueAccessTicket | hbse/src/vault.rs:711-784 | is the whole operation `IssueTicket` |
| Vault.LocalVault.ValidateAccessTicket | hbse/src/vault.rs:786-803 | is the whole operation `ValidateTicket`, writing nothing |
| Vault.LocalVault.RenewAccessTicket | hbse/src/vault.rs:805-840 | is the whole operation `RenewTicket` |
| Vault.LocalVault.ConsumeTicketForSecret | hbse/src/vault.rs:842-903 | is the whole operation `ConsumeTicket` |
| Vault.LocalVault.RevokeAccessTicket | hbse/src/vault.rs:905-929 | is the whole operation `RevokeTicket` |
| Vault.LocalVault.RevokeAll | hbse/src/vault.rs:931-955 | is the whole operation `RevokeAllTickets` |
| Vault.LocalVault.RevokeEach | hbse/src/vault.rs:935-942 | the loop makes exactly the planned writes, stops where the plan stops and counts as it counts |
| Vault.LocalVault.ActivePolicyFor | hbse/src/vault.rs:967-976 | the first listed policy with the ticket's policy id |
| Vault.LocalVault.EnsureTicketSecretIsCurrent | hbse/src/vault.rs:978-991 | accepts iff the latest version is the ticket's and active, or the ticket's version is 0 |
| Vault.LocalVault.BeginRotation | hbse/src/vault.rs:993-1036 | is the whole operation `StartRotation` |
| Vault.LocalVault.CheckRotation | hbse/src/vault.rs:1038-1068 | is the whole operation `VerifyRotation` |
| Vault.LocalVault.Promote | hbse/src/vault.rs:1070-1107 | is the whole operation `PromoteRotation` |
| Vault.LocalVault.Rollback | hbse/src/vault.rs:1109-1141 | is the whole operation `RollbackRotation` |
| Vault.LocalVault.Rewrap | hbse/src/vault.rs:313-362 | is the whole operation `RewrapProvider` |
| Vault.LocalVault.SetPlaintextExportEnabled | hbse/src/vault.rs:271-301 | is the whole operation `SetPlaintextExport` |
| Vault.LocalVault.EnforcePlaintextExportAllowed | hbse/src/vault.rs:303-311 | export is allowed iff enabled and, when a TOTP secret is active, MFA was verified |
| Vault.LocalVault.VerifyAuditLog | hbse/src/vault.rs:665-670 | is the whole operation `VerifyAudit`, writing nothing |

## Left out

- Re-provisioning from a recovery package, and the wrapping inside the package.
- `verify_totp_mfa` as a vault operation: the code check is modelled, its two audit events are not.
- Listing calls, readiness reports, backup, release, dotenv and provider catalogue code: reads and rendering.
- Provider internals (scrypt, TPM, machine files): a binding gives back the same root key for the right input.
- SQLite itself, the write-ahead log, schema checks, file permissions, I/O errors and serialization defaults.
- The HTTP client, gateway parsing and URL mapping, peer credentials, and the regular expressions of the text redactor.
- Overflow of 64-bit versions and of the TOTP step arithmetic at its extreme values, and panics of the date library far outside its range.
- The clock is read once per vault operation; the source reads it several times.
- The secret id is the symbolic digest of the whole reference, not its first 18 bytes, so ids never collide by truncation.
- Broker.BrokerState.HandleConnection: `checkout`, `materialize` and `provider_http` are one `Access` command, because they treat the session alike, and what the vault answers (opens, valid code, success) is a parameter; `Brokered` attaches the vault for the first two, the outgoing HTTP call is not part of this model.
- The use bound is per ticket id; a chain of renewals starts a new count each time, as the source does.
