# Verified model of the flare IM core SDK

This project models the parts of the flare IM client SDK in which a mistake would be hardest to see, and
proves what they promise over every input, every interleaving or every run.

- **OS push binding lifecycle** (`PushModel`, `PushSafety`, `PushTraffic`, `PushStatus`, `PushLogout`, `PushProviders`,
  `PushRoom`, `PushConvergence`, `PushRace`, `PushRaceRun`, `PushLifecycle`). A revocation secret is journaled before the register PUT; a reconcile
  pass keeps, confirms or revokes every journaled intent and then registers what is still desired.
  `PushModel` is a transition system: one step is one lock region, one network event, one setter call, a
  generation change, a cancellation or a crash, so all of these interleave freely. It carries a log of what
  the network saw. `PushLifecycle` is the object itself, with the loops of `run`; its history is a run of
  the transition system, so everything proved of runs holds of it.
- **URL parser and printer** (`UrlText`, `Url`, `UrlHost`, `UrlRoundTrip`, `UrlMeaning`, `UrlQuery`, `UrlBuffers`), the
  subset of the WHATWG URL Standard that the access layer reads (its sections 1.3, 3.5, 4.4, 4.5 and 5; the
  scheme grammar is section 3.1 of RFC 3986), over byte strings.
- **Message content conversion** (`Content`, `ContentCodec`, `ContentNormal`, `ContentWire`, `ContentPreview`,
  `ContentSummary`): the two recursive converters between elements and the wire form, and the list summary.
- **Access manifest kernel** (`Kernel`, `KernelRuns`): anti-rollback commits, the in-memory directory, boot.
- **Mention scanner** (`Mention`), **host token broker** (`Broker`), **session-end signal** (`SessionEnd`).

Each protocol has an inductive invariant, small lemmas that every step keeps it, and main theorems over whole
runs. Code that changes state in place is a class or a method with loops, proved against the functions that
the theorems are about.

What comes from outside is a parameter or a free choice of the environment: answers and failures of HTTP
calls, timeouts, whether a save or a store call succeeds and at which point it fails, whether a signature
verifies, the random secret (never drawn twice), the clock, and the map order of the desired inputs. SHA-256 is an
injective function. JSON encoding and IPv6 text are parameters (`Content.Codec`, `Url.Ipv6Codec`) that are
only required to read back what they wrote; `ContentCodec.LawfulExists` and `UrlHost.LawfulExists` show that
this can be met.

One promised property fails of the code: a pass can register a provider twice. `PushRace.DuplicatesIffStirred`
gives the exact condition, the setter calls that reach into a running pass.

Where comments and code disagree, the model follows the code. The comment above the content converters
(src/content/message_elem.rs:1311) calls them inverse to each other; they are inverse exactly on the stable
elements, which `ContentNormal.UnchangedIffStable` characterises; `ContentNormal.NotInverse` gives elements
that come back changed. The list summary survives the wire exactly
on the elements that `ContentPreview.PreviewPreservedIff` names.

`dafny verify dfyconfig.toml` checks the whole project.

## Model

| member | source | states |
|---|---|---|
| PushSafety.WriteAheadSafety | src/client/push_lifecycle.rs:364-492 | in every state of every run (setters, failed saves, failed or timed-out calls, cancellation and crashes anywhere), every binding ever sent in a register PUT is in the durable journal of its namespace, or its own secret was posted, without a bearer, to the endpoint it was registered on and that revoke was answered with success |
| PushSafety.AcknowledgedWasPosted | src/client/push_lifecycle.rs:415-423 | over every run, an acknowledged revoke is of a secret that was posted to the endpoint of every binding sent under it, and the pass that waits for an answer has posted the secret of the very intent it is at |
| PushSafety.SentIsThisTurn | src/client/push_lifecycle.rs:484-497 | over every run, from the PUT until its binding is confirmed, the PUT that left is the one of this turn: its binding id, the session's endpoint and device, and the input the loop is at |
| PushTraffic.PutsCarryTheirInput | src/client/push_lifecycle.rs:459-488 | over every run, every PUT carries a valid input, to the device whose namespace its intent was journaled in, and an attempt has the provider and digest of exactly the input that was sent under it |
| PushTraffic.RegisteredIsDesired | src/client/push_lifecycle.rs:319-333 | over every run, a binding that counts as registered was sent with the very input that is desired now, token and platform included |
| PushTraffic.RunCarries | src/client/push_lifecycle.rs:439-497 | the invariant behind these holds in every state of every run |
| PushStatus.CountsSplitTheJournal | src/client/push_lifecycle.rs:319-338 | in every reachable state the registered count is the number of journaled bindings that are permitted, confirmed, of the current session and for a desired input, and the pending count the number of the others |
| PushStatus.PhaseInRuns | src/client/push_lifecycle.rs:339-352 | in every reachable state, each phase if and only if: registered exactly when nothing failed last, every journaled binding counts and they are as many as the desired inputs; the waiting phases and disabled exactly by the first thing missing with an empty journal and no error; pending otherwise |
| PushSafety.JournaledBeforeSent | src/client/push_lifecycle.rs:459-488 | whenever a PUT leaves, its intent was already durable in the state before |
| PushSafety.EndpointConfinement | src/client/push_lifecycle.rs:389-423 | over every run, a revocation secret is posted only to the endpoint its binding was registered on, and never with a bearer |
| PushSafety.EndpointsAgree | src/client/push_lifecycle.rs:201-308 | in every reachable state session client, revoke transport and open journal name one endpoint and device, and the endpoint mismatch check of the reconcile loop never fires |
| PushSafety.NamespaceInjective | src/client/push_lifecycle.rs:230-232 | two endpoint and device pairs share a journal directory if and only if they are equal |
| PushSafety.StatusConservation | src/client/push_lifecycle.rs:319-338 | in every reachable state the attempts are journaled, the saturating subtraction never saturates, and registered plus pending is the number of journal entries |
| PushSafety.StepKeeps | src/client/push_lifecycle.rs:171-512 | every step of the system keeps the invariant that the safety theorems rest on |
| PushSafety.RunInv | src/client/push_lifecycle.rs:171-512 | the invariant holds in every state of every run |
| PushSafety.ConfigureKeeps | src/client/push_lifecycle.rs:201-253 | configuring keeps the invariant on every path, failed journal open included, and success leaves a journal open for exactly the given endpoint and device |
| PushSafety.ConfigureOutcome | src/client/push_lifecycle.rs:201-253 | configuring succeeds if and only if client and device are sound and the journal is the one already open, or nothing is journaled and the new one opens; and what transport, journal, session, attempts and error are then and otherwise |
| PushSafety.DiskSaveKeeps | src/client/push_lifecycle/journal.rs:147-178 | a save of content that covers what was sent keeps the disk safe, whether it completes, fails before the rename or fails after it |
| PushSafety.WithoutDistinct | src/client/push_lifecycle/journal.rs:136-146 | removing an id leaves distinct entries and takes away exactly that id |
| PushSafety.RemoveKeeps | src/client/push_lifecycle.rs:424-428 | dropping a revoked intent keeps the invariant whatever the save does: only acknowledged bindings lose their entry |
| PushSafety.JournalOutcome | src/client/push_lifecycle.rs:460-483 | in every reachable state a journal is open there; the PUT is next if and only if the input is still desired, the journal has room and the save completed, and then intent and attempt are recorded and durable; otherwise the pass is over and memory is as it was |
| PushSafety.JournalKeeps | src/client/push_lifecycle.rs:459-483 | the write-ahead region keeps the invariant for every save outcome |
| PushLogout.LogoutCompleteness | src/client/push_lifecycle.rs:390-437 | a pass that had no permission or no current session throughout and returned Ok leaves the journal empty, and every binding of that namespace ever sent has had its own secret posted to its own endpoint and acknowledged, whatever interleaved |
| PushLogout.DrainingAlong | src/client/push_lifecycle.rs:390-428 | during such a pass the journal is at every moment exactly what is still to be revoked |
| PushProviders.OneAttemptPerProvider | src/client/push_lifecycle.rs:390-498 | in runs without a stirring setter call no two attempts are for one provider; clear, permission switched off, and every update and permission change that does not stir may fall anywhere inside a pass, as may detach, generation changes, failures, cancellation and crashes |
| PushProviders.RegisteredMeansBijection | src/client/push_lifecycle.rs:309-359 | status registered pairs desired providers, confirmed current digest-matching attempts and journal entries one to one, and every attempt is confirmed, of the current session and for the input desired now |
| PushProviders.RegisteredInQuietRuns | src/client/push_lifecycle.rs:309-359 | in every state of every run without a stirring setter call, status registered means that bijection |
| PushProviders.InputDigestInjective | src/client/push_lifecycle.rs:140-145 | among valid inputs of one provider, equal digests mean the same input |
| PushProviders.QuietKeeps | src/client/push_lifecycle.rs:371-501 | every step that does not stir keeps uniqueness and what the pass has settled |
| PushRace.DuplicatesIffStirred | src/client/push_lifecycle.rs:390-498 | exactly when: after every run without stirring and for every next step, a continuation without further stirring reaches two attempts for one provider if and only if that step stirs: an update to another token of an attempt the scan has passed while the session is current, or a call that makes an input with an attempt wanted again between the check and the insertion |
| PushRace.UpdateDuplicates | src/client/push_lifecycle.rs:429-483 | from every such state in front of the snapshot with a current session, one token rotation of an attempted provider leads to two attempts, whatever the order of the inputs, and the journal always has room |
| PushRace.FlickerDuplicates | src/client/push_lifecycle.rs:439-483 | from every such state about to find an input registered, permission switched off and on around the check leads to two attempts: the check and the insertion are separate lock regions |
| PushRaceRun.InterruptedPassCanDuplicate | src/client/push_lifecycle.rs:430-483 | both kinds happen in runs from an empty disk on, so neither can be dropped from the hypothesis |
| PushRoom.JournalHasRoom | src/client/push_lifecycle/journal.rs:126-129 | without stirring the registration loop finds at most three journaled bindings, so the capacity of 64 never turns a registration away |
| PushRoom.RunTidy | src/client/push_lifecycle.rs:390-483 | in every run every journaled binding without an attempt is still ahead of the scan, and none is left when registration starts |
| PushConvergence.Convergence | src/client/push_lifecycle.rs:371-501 | from every reachable state with one attempt per provider, permission and a current session, an undisturbed pass whose calls succeed returns Ok with journal, confirmed attempts and desired providers in bijection, every attempt for the input desired now, and status says so |
| PushConvergence.PassCompletes | src/client/push_lifecycle.rs:371-501 | from every state of a pass an undisturbed run to its end exists |
| PushConvergence.CleanPassExists | src/client/push_lifecycle.rs:371-501 | whenever no pass is under way, a whole undisturbed pass of the kind convergence speaks of exists |
| PushConvergence.ReconcileTwice | src/client/push_lifecycle.rs:371-501 | after every run without stirring, with permission and a current session: of any two undisturbed passes in a row the first returns Ok and converges, and the second makes no network call and leaves it so |
| PushConvergence.TwoPassesExist | src/client/push_lifecycle.rs:371-501 | two such passes in a row exist |
| PushConvergence.Progress | src/client/push_lifecycle.rs:371-501 | until the pass has returned a successful step is possible: it is never stuck |
| PushConvergence.SuccessDescends | src/client/push_lifecycle.rs:390-500 | every successful step lowers a bound on the steps left, so an undisturbed pass ends |
| PushConvergence.SecondPassIsSilent | src/client/push_lifecycle.rs:390-447 | an undisturbed pass from a converged state makes no network call |
| PushLifecycle.PassLeavesNothing | src/client/push_lifecycle.rs:371-501 | write-ahead safety and logout completeness hold at the end of every recorded pass |
| PushLifecycle.PushLifecycle.constructor | src/client/push_lifecycle.rs:102-115 | a fresh process continues any earlier history over what is on disk |
| PushLifecycle.PushLifecycle.Update | src/client/push_lifecycle.rs:149-181 | refused exactly on invalid input; otherwise that provider's desired input becomes this one, all others and every other field stay, and it is the one setter step |
| PushLifecycle.PushLifecycle.Clear | src/client/push_lifecycle.rs:182-188 | refused exactly on an unknown provider; otherwise that provider alone stops being desired, every other field stays, and it is the one setter step |
| PushLifecycle.PushLifecycle.Permission | src/client/push_lifecycle.rs:189-191 | the permission is the given one, nothing else changes, and it is the one setter step |
| PushLifecycle.PushLifecycle.Detach | src/client/push_lifecycle.rs:192-194 | the session is gone, nothing else changes, and it is the one setter step |
| PushLifecycle.PushLifecycle.ConfigureRegion | src/client/push_lifecycle.rs:233-252 | the fields end as the configure function says, branch by branch |
| PushLifecycle.PushLifecycle.Configure | src/client/push_lifecycle.rs:197-253 | one configure step; success leaves the anonymous transport and the journal of that endpoint and device |
| PushLifecycle.PushLifecycle.AttachStart | src/client/push_lifecycle.rs:267-294 | the first half of an attach is one step; success leaves the anonymous transport of that session |
| PushLifecycle.PushLifecycle.AttachFinish | src/client/push_lifecycle.rs:295-307 | the session is stored exactly if its generation is still current |
| PushLifecycle.PushLifecycle.Attach | src/client/push_lifecycle.rs:254-308 | with anything interleaved between the halves, success means a stored session that is current and a transport of the same endpoint |
| PushLifecycle.PushLifecycle.Status | src/client/push_lifecycle.rs:309-359 | the status of the fields, whose counts add up to the journal |
| PushLifecycle.PushLifecycle.DropIntent | src/client/push_lifecycle.rs:424-428 | journal, attempts and disk after a removal, for every save outcome |
| PushLifecycle.PushLifecycle.WriteAhead | src/client/push_lifecycle.rs:470-482 | journal, attempts and disk after an add: memory follows only a completed save |
| PushLifecycle.PushLifecycle.JournalIntent | src/client/push_lifecycle.rs:459-483 | the write-ahead region is one step of the system, and only its success goes on to the PUT |
| PushLifecycle.PushLifecycle.ReconcileIntent | src/client/push_lifecycle.rs:391-428 | one turn of the loop over the journal, with setters, failures and cancellation interleaved, moves past the intent or ends the pass in failure |
| PushLifecycle.PushLifecycle.ReconcileAll | src/client/push_lifecycle.rs:390-429 | the loop over the journal handles every entry of the snapshot or fails |
| PushLifecycle.PushLifecycle.RegisterInput | src/client/push_lifecycle.rs:439-497 | one turn of the registration loop moves past the input or ends the pass |
| PushLifecycle.PushLifecycle.RegisterAll | src/client/push_lifecycle.rs:438-498 | the registration loop handles every desired input or ends the pass with the outcome it reports |
| PushLifecycle.PushLifecycle.Run | src/client/push_lifecycle.rs:371-501 | the recorded history is one whole pass of the system; it leaves nothing sent without a durable intent or acknowledged revoke, and an emptied journal after a successful logged-out pass |
| PushLifecycle.PushLifecycle.Reconcile | src/client/push_lifecycle.rs:364-370 | a whole pass, the unavailable mark exactly if it did not return Ok, and the status of what is left |
| UrlRoundTrip.RoundTrip | access/src/parsed_url.rs:63-166 | for every accepted string, printing the URL and parsing it again gives the same URL |
| UrlRoundTrip.DisplayInjective | access/src/parsed_url.rs:151-166 | accepted strings with equal printed form parse to equal URLs |
| UrlRoundTrip.NormalIffParsed | access/src/parsed_url.rs:63-92 | the normal URLs, described by their text alone, are exactly the values parsing yields |
| UrlRoundTrip.ParseIsNormal | access/src/parsed_url.rs:63-92 | parsing yields only normal URLs: valid scheme in small letters other than file and ftp, non-empty labels, small letters and the dotted quad for a numeric last label under a special scheme, no default port, clean path, query and fragment; what they mean is `UrlMeaning.ParseExact` |
| UrlMeaning.ParseExact | access/src/parsed_url.rs:63-92 | for every text cut into scheme, host, port, path, query and fragment: the first fault in the order of checking decides the error, and without one the value holds the same parts: scheme and special host up to case, the decimal value of the port unless it is the scheme's own, path, query and fragment with the same percent-decoding as the raw ones and nothing else escaped |
| UrlMeaning.AcceptedIff | access/src/parsed_url.rs:63-92 | a text is accepted if and only if it is spelled from such parts without a fault, and its value then means them |
| UrlMeaning.AcceptedHasParts | access/src/parsed_url.rs:68-75 | every accepted text is spelled from well-cut parts |
| UrlMeaning.NoAuthority | access/src/parsed_url.rs:71 | a supported scheme that is not followed by two slashes is the missing-authority error |
| UrlMeaning.PrintedParts | access/src/parsed_url.rs:151-166 | a parsed URL prints as exactly its own scheme, host, port in decimal digits without leading zeros, path, query and fragment, well cut |
| UrlMeaning.PathRead | access/src/parsed_url.rs:263-271 | a path is accepted if and only if no segment decodes to a dot segment, and is then the same path, or the root if it was empty under a special scheme |
| UrlMeaning.EscapeSets | access/src/parsed_url.rs:280-295 | which characters are escaped in path, query and fragment, if and only if |
| UrlMeaning.CutJoins | access/src/parsed_url.rs:73-75 | cutting loses nothing: the pieces put together again are the text |
| UrlRoundTrip.SchemeReads | access/src/parsed_url.rs:173-186 | a scheme is normal if and only if reading it gives it back |
| UrlRoundTrip.HostReads | access/src/parsed_url.rs:236-253 | a named host is normal if and only if reading it gives it back with its address |
| UrlRoundTrip.NormalRoundTrip | access/src/parsed_url.rs:151-166 | every normal URL is read back from its printed form |
| UrlRoundTrip.CutDisplay | access/src/parsed_url.rs:73-75 | first-separator cutting undoes the assembly of authority, path, query and fragment |
| UrlRoundTrip.AuthorityReads | access/src/parsed_url.rs:199-225 | host and port of a normal URL are read back from the printed authority, bracketed literals included |
| UrlRoundTrip.DotSegmentExact | access/src/parsed_url.rs:273-278 | the listed spellings are exactly the segments that percent-decode to one or two dots |
| UrlRoundTrip.EncodeKeepsDotSegments | access/src/parsed_url.rs:263-271 | percent-encoding a path neither makes nor hides a dot segment |
| UrlRoundTrip.NoDotSegments | access/src/parsed_url.rs:263-278 | no segment of an accepted path, as given or re-encoded, decodes to a dot segment |
| UrlHost.NumericHostIsCanonical | access/src/parsed_url.rs:236-261 | an accepted special-scheme host reports an address if and only if its last label is numeric, and is then that address's canonical dotted quad |
| UrlHost.OneSpellingPerAddress | access/src/parsed_url.rs:236-253 | two accepted spellings of one IPv4 address are the same string |
| UrlHost.Ipv4Spelling | access/src/parsed_url.rs:245-251 | a text reads as an IPv4 address if and only if it is its canonical dotted quad |
| UrlHost.OctetSpelling | access/src/parsed_url.rs:245-251 | an octet reads as n if and only if it is the decimal text of n at most 255 |
| UrlHost.ParseDomainTwice | access/src/parsed_url.rs:236-253 | an accepted host is accepted again unchanged with the same address |
| UrlHost.LawfulExists | access/src/parsed_url.rs:228-234 | a writing of every IPv6 address as hexadecimal digits and colons that reads back exists |
| UrlText.EncodeIdempotent | access/src/parsed_url.rs:297-314 | for every set that spares percent signs, slashes and hexadecimal digits, as the four sets do, encoding twice is encoding once |
| UrlText.DecodeOfEncode | access/src/parsed_url.rs:297-314 | encoding does not change what a text percent-decodes to |
| UrlText.SplitOfEncode | access/src/parsed_url.rs:263-271 | the segments of an encoded path are the encoded segments |
| UrlText.PrintNatOfValue | access/src/parsed_url.rs:219-225 | digits without a leading zero are what their value prints as |
| UrlQuery.AppendLaw | access/src/parsed_url.rs:127-148 | for all UTF-8 names and values, the pairs after an append are the old pairs and then exactly that pair |
| UrlQuery.AppendRoundTrip | access/src/parsed_url.rs:140-166 | the extended URL still survives printing and parsing |
| UrlQuery.FormRoundTrip | access/src/parsed_url.rs:316-348 | form decoding undoes form encoding on every byte string |
| UrlQuery.FormTextRoundTrip | access/src/parsed_url.rs:316-348 | and on every UTF-8 text, lossy conversion included |
| UrlQuery.QueryReads | access/src/parsed_url.rs:127-138 | for every query, written here or not: the pairs are those of its non-empty pieces between ampersands, in order |
| UrlQuery.PieceIsRead | access/src/parsed_url.rs:134-137 | a piece is cut at its first equals sign; without one the whole is the name and the value is empty |
| UrlQuery.FormByteReads | access/src/parsed_url.rs:327-348 | what the decoder makes of a plus sign, an escape, a broken escape and any other byte |
| UrlQuery.NoQueryNoPairs | access/src/parsed_url.rs:127-133 | a URL without a query has no pairs |
| UrlBuffers.EncodePercent | access/src/parsed_url.rs:297-314 | the byte loop computes the percent-encoding |
| UrlBuffers.FormEncodeInto | access/src/parsed_url.rs:316-325 | the byte loop appends the form encoding to the buffer and keeps what was there |
| UrlBuffers.DecodeForm | access/src/parsed_url.rs:327-348 | the index loop computes the form decoding |
| UrlBuffers.UrlObject.Append | access/src/parsed_url.rs:140-148 | only the query changes, and for UTF-8 arguments the pairs grow by exactly the new one |
| ContentNormal.ReceivedIsNormal | src/content/message_elem.rs:1078-1552 | sending and receiving is total on elements of any nesting and yields the normal form |
| ContentNormal.UnchangedIffStable | src/content/message_elem.rs:1078-1552 | an element comes back unchanged if and only if, everywhere inside it, no mini-program extra holds page_path, forward times are absent or in 1..=i64::MAX, and every plugin-typed custom has a valid envelope whose summary is its description |
| ContentNormal.NotInverse | src/content/message_elem.rs:1311-1312 | three elements that come back changed, one for each exception |
| ContentNormal.SurvivesIffWritten | src/content/message_elem.rs:1078-1552 | a wire value survives being read and written again if and only if some stable element is written as it, so the converters are inverse bijections between these two sets |
| ContentNormal.SecondTripUnchanged | src/content/message_elem.rs:1078-1552 | a second trip changes nothing: the conversion is idempotent |
| ContentNormal.NormalIsStable | src/content/message_elem.rs:1078-1552 | the normal form is stable at every depth |
| ContentNormal.MiniProgramReceived | src/content/message_elem.rs:901-974 | a mini-program comes back as its normal form, page path and attributes separated |
| ContentNormal.VoteReceived | src/content/message_elem.rs:901-974 | a vote comes back unchanged through its card payload |
| ContentNormal.TaskReceived | src/content/message_elem.rs:901-974 | a task comes back unchanged through its card payload |
| ContentNormal.ScheduleReceived | src/content/message_elem.rs:901-974 | a schedule comes back unchanged through its card payload |
| ContentNormal.AnnouncementReceived | src/content/message_elem.rs:901-974 | an announcement comes back unchanged through its card payload |
| ContentNormal.CustomReceived | src/content/message_elem.rs:1078-1261 | a custom element comes back as its normal form, with plugin envelopes valid, invalid or absent; every field on the wire in between is `ContentWire.CustomWritten` |
| ContentNormal.CopiesBack | src/content/message_elem.rs:1000-1309 | mention, image, video and audio copies out undo the copies in |
| ContentWire.FlatWritten | src/content/message_elem.rs:1312-1552 | every flat element goes out as its own kind with every field under its own name |
| ContentWire.FlatRead | src/content/message_elem.rs:1078-1261 | every flat wire value, written here or not, is read as its own kind with every field under its own name |
| ContentWire.NestedWritten | src/content/message_elem.rs:1312-1552 | quotes, threads and forwards go out with every field under its own name and their parts as the one message of each |
| ContentWire.NestedRead | src/content/message_elem.rs:1073-1261 | the same for reading wire values that were not written here |
| ContentWire.ItemsWritten | src/content/message_elem.rs:1312-1552 | forwarded items go out one for one and in order, every field under its own name, times cut at the largest i64 |
| ContentWire.ItemsRead | src/content/message_elem.rs:1078-1261 | forwarded items are read one for one and in order; a time at or before zero is none |
| ContentWire.CardWritten | src/content/message_elem.rs:976-998 | every field of a card written for a mini-program, vote, task, schedule or announcement: type, ids, title, summary, schema, payload and attributes, the ones nobody reads back included |
| ContentWire.CustomWritten | src/content/message_elem.rs:1312-1552 | a plugin card goes out under its envelope's plugin id and summary with its bytes untouched, every other custom element as it is |
| ContentWire.CustomRead | src/content/message_elem.rs:1078-1261 | a custom wire value is kept as it is, except that one of the plugin type becomes the unsupported placeholder |
| ContentWire.ForeignCardRead | src/content/message_elem.rs:901-974 | a card of a type this SDK does not know is kept as a custom element with its bytes and attributes, described by its summary or else its title |
| ContentWire.AttributesFillIn | src/content/message_elem.rs:858-974 | a known card without a readable payload takes its texts and lists from the attributes |
| ContentWire.TimesAndFlagsFillIn | src/content/message_elem.rs:885-974 | and its times and flags |
| ContentWire.PayloadWins | src/content/message_elem.rs:858-899 | a payload value of the right type wins over the attribute, and one of a wrong type counts as absent |
| ContentWire.JoinCommaTells | src/content/message_elem.rs:1312-1552 | options without a comma can be told from the summary of a vote card |
| ContentWire.LinesReadBack | src/content/message_elem.rs:839-849 | a list of trimmed non-blank lines is read back from its attribute form |
| ContentWire.NumberReadsBack | src/content/message_elem.rs:885-891 | and so is every number |
| ContentCodec.LawfulExists | src/content/message_elem.rs:851-857 | an encoding of JSON objects as bytes that reads back exists, so the codec law assumed of the JSON library can be met |
| ContentPreview.PreviewPreservedIff | src/content/message_elem.rs:309-568 | the stored summary survives the wire if and only if the plugin card it is taken from, through quotes and forwards, if it is taken from one, has a valid envelope |
| ContentPreview.PreviewFate | src/content/message_elem.rs:309-568 | the same by induction through quote content and first forwarded items, for the normal form |
| ContentPreview.PluginPreviewFromEnvelope | src/content/message_elem.rs:573-589 | a plugin card's summary depends on its envelope's name and summary alone |
| ContentSummary.SummaryKey | src/content/message_elem.rs:309-568 | the key every kind but quote and forward is stored under |
| ContentSummary.SummaryArguments | src/content/message_elem.rs:309-568 | the arguments of every kind by name: which field each comes from, and that a blank or empty one is left out |
| ContentSummary.ImageSummary | src/content/message_elem.rs:309-568 | an image says whether it moves and shows its description unless blank |
| ContentSummary.RichTextSummary | src/content/message_elem.rs:309-568 | a rich text shows its trimmed title and trimmed plain text, each exactly if not blank |
| ContentSummary.CustomSummary | src/content/message_elem.rs:573-589 | a plugin card with a valid envelope shows its name in brackets and its summary, every other custom element its trimmed description |
| ContentSummary.SystemSummary | src/content/message_elem.rs:309-568 | a system message with a key of its own or a kind shows key, kind, parameters and fallback, otherwise its body |
| ContentSummary.NotificationSummary | src/content/message_elem.rs:309-568 | a notification likewise, with its title, and without the kind |
| ContentSummary.QuoteSummary | src/content/message_elem.rs:309-568 | a quote shows what was said now, else the quoted text, else only that it is a quote |
| ContentSummary.ForwardSummary | src/content/message_elem.rs:309-568 | a forward shows its only item as that item is shown, and several by their number and the first |
| ContentSummary.Summarize | src/content/message_elem.rs:309-568 | the code that fills the argument maps key by key computes this summary |
| ContentPreview.ToJsonInjective | src/content/preview_storage.rs:47-66 | different summaries are stored as different values |
| KernelRuns.NeverBackwards | access/src/kernel.rs:400-443 | over every interleaving of commit and install halves with store failures and damage, the persisted maximum never falls, and except across a restart the manifest in memory gives way only to one of a larger serial |
| KernelRuns.DirectoryIsMaximum | access/src/kernel.rs:418-443 | the manifest in memory is the one booted on or one installed since, of the largest serial among them; there is none exactly if none was offered |
| KernelRuns.StoredIsLastWritten | access/src/store/manifests.rs:262-318 | over every run, a readable record is the last one any commit wrote, with the tag, source and time of its fetch; none written before is of a larger serial; the record kept behind is an earlier one of a smaller serial |
| KernelRuns.AheadOnlyIfReported | access/src/kernel.rs:410-443 | memory is ahead of the persisted maximum only with a serial reported as not persisted, by an update or by the boot |
| KernelRuns.BootTakesTheLarger | access/src/kernel.rs:687-744 | a boot whose last-known-good copy verifies starts on the last manifest written, with its source, unless a verifying seed is of a larger serial: then on the seed |
| KernelRuns.FallbackKeepsMaximum | access/src/kernel.rs:746-788 | no boot lowers the persisted maximum |
| KernelRuns.AfterFallback | access/src/kernel.rs:400-443 | after a boot on an older seed, as long as the maximum can be read whenever a commit below it is made, the directory only moves to serials at or above the persisted maximum it was booted under |
| KernelRuns.RefusedSeedCachesMaximum | access/src/kernel.rs:763-788 | a seed refused as older than the store leaves the maximum cached, so later reads cannot miss it |
| KernelRuns.UnchangedHealsMemory | access/src/kernel.rs:400-443 | accepting the manifest of the maximum again, which the store reports unchanged, still brings memory up to it |
| KernelRuns.OlderRefusedIffReadable | access/src/store/manifests.rs:184-206 | for every manifest below the maximum and all store faults, the commit is refused if and only if the maximum is cached or readable; if it is not, the manifest is used when newer than memory, reported as not persisted |
| KernelRuns.CutKeepsDisk | access/src/store/manifests.rs:308-309 | a commit dropped between the write and the cache update leaves the store in order and at most the cache behind |
| KernelRuns.LowersMaximumIff | access/src/store/manifests.rs:262-318 | for every cache and all store faults, a commit lowers the persisted maximum if and only if it goes through against a cache that stayed behind with a serial in between |
| KernelRuns.RestartHealsCut | access/src/kernel.rs:687-788 | a restart after a dropped commit restores the invariant |
| KernelRuns.OlderCommittedIffBothLost | access/src/store/manifests.rs:184-206 | after a restart an older manifest is committed if and only if the serial key and the record are both lost |
| KernelRuns.CommitKeepsDisk | access/src/store/manifests.rs:262-318 | a commit never lowers the maximum, reports rollback only below it, and leaves key, record and cache agreeing on it, for every store fault; what it writes is `Kernel.CommitStores` |
| KernelRuns.CommitKeepsLog | access/src/store/manifests.rs:262-318 | a commit that writes is the last entry of the log of writes, which stays in order of serials |
| Kernel.CommitStores | access/src/store/manifests.rs:282-307 | a commit leaves the store as it was, or holding exactly this manifest with the tag, source and time it was fetched with, and the record it replaced in the previous slot; an adopted manifest is always held |
| Kernel.CommitExact | access/src/store/manifests.rs:262-318 | refused, adopted or unchanged if and only if: by the cached or stored maximum, whether it can be read, and which later store calls fail; and what the cache is then |
| Kernel.BootChoice | access/src/kernel.rs:687-788 | the record if it verifies and no verifying seed is of a larger serial, else a verifying seed, else nothing: manifest, source, fetch time and store in each case |
| Kernel.BootWarnings | access/src/kernel.rs:632-788 | each warning is given if and only if what it says is so |
| KernelRuns.RunInv | access/src/kernel.rs:367-443 | the invariant of store, cache, memory and pending accepts holds in every state of every run |
| Kernel.AccessKernel.constructor | access/src/kernel.rs:632-788 | the boot sequence with its pushed warnings computes the chosen initial directory, store and cache; the choice is `Kernel.BootChoice` |
| Kernel.AccessKernel.CommitHalf | access/src/store/manifests.rs:262-318 | the commit under the gate computes result, store and cache, for every store fault; a store that changed holds exactly this manifest and has moved the old record behind |
| Kernel.AccessKernel.InstallHalf | access/src/kernel.rs:418-443 | the directory becomes this manifest and source exactly if it held none or one of a smaller serial, and only then the fetch time follows; otherwise nothing changes |
| Kernel.AccessKernel.Adopt | access/src/kernel.rs:400-416 | refused exactly on rollback, with nothing changed; otherwise memory holds this manifest exactly if it held none or an older one, and the reported persistence is whether the store failed |
| Mention.ParseMentions | src/content/mention.rs:62-139 | the jumping loop gives the same result as looking at every position; a user id is in it if and only if some at sign calls a candidate of that trimmed id, and everyone if and only if some at sign calls everyone |
| Mention.UserAtMeaning | src/content/mention.rs:32-128 | a position mentions a user if and only if it is an at sign at a boundary and, among the trimmed ids and names of the candidates that begin what follows, the longest is that user's, longer than every everyone word that fits, the earlier candidate winning among equals |
| Mention.EveryoneAtMeaning | src/content/mention.rs:32-128 | a position mentions everyone if and only if an everyone word fits and no candidate's text that fits is longer |
| Mention.MentionsMeaning | src/content/mention.rs:62-139 | the result over the candidates, both directions, for every text |
| Mention.CallsOne | src/content/mention.rs:109-128 | an at sign calls at most one candidate, and not everyone besides |
| Mention.TokenMeaning | src/content/mention.rs:25-83 | a token is in the table if and only if it is one of the four everyone words without target, or a non-empty trimmed id or name of a candidate with that candidate's trimmed id as target |
| Mention.BoundaryMeaning | src/content/mention.rs:28-48 | an at sign counts at the start, after white space and after Chinese text, and never after what an address is written with, whatever the table |
| Mention.TokenCharacters | src/content/mention.rs:50-58 | what continues and what ends a run of token characters |
| Mention.MentionMeaning | src/content/mention.rs:32-128 | a position mentions exactly when it is an at sign at a boundary with a matching token, and then the longest, among equals the earliest in the table |
| Mention.FirstMatchIsBest | src/content/mention.rs:85-128 | the first match in the sorted table is the best match of the table as built |
| Mention.SortedDescending | src/content/mention.rs:84-85 | the sorted table is a permutation with falling lengths |
| Mention.FoundIffMentioned | src/content/mention.rs:87-139 | the user ids found are exactly those mentioned at some position |
| Mention.AllIffMentioned | src/content/mention.rs:87-139 | everyone is mentioned exactly when some position says so |
| Mention.FirstOccurrenceOrder | src/content/mention.rs:87-139 | user ids are distinct and in the order of first mention |
| Mention.SkipPlain | src/content/mention.rs:87-136 | a stretch without an at sign adds nothing, which is what makes the jumps sound |
| Mention.NothingAfterAt | src/content/mention.rs:98-107 | an at sign followed by no token character mentions nobody |
| Mention.BuildTable | src/content/mention.rs:67-83 | the loops build the token table in source order; it holds the everyone words and the candidates' texts with their owners, and nothing else |
| Mention.FindToken | src/content/mention.rs:109-128 | the loop finds the first token that is a prefix |
| Mention.ReadRun | src/content/mention.rs:99-103 | the loop stops at the first character that cannot be part of a token |
| Broker.PendingIsBoundedAndLive | src/client/token_broker.rs:67-103 | over every interleaving at most eight requests are pending, each with a waiter whose guard is still held |
| Broker.AcceptedAtMostOnce | src/client/token_broker.rs:49-60 | a request is answered true at most once |
| Broker.ReceivesItsOwnAnswer | src/client/token_broker.rs:107-115 | a waiter returns only a value completed for its own request |
| Broker.LateAnswersIgnored | src/client/token_broker.rs:97-103 | once a waiter is gone no later answer to its request is accepted |
| Broker.RunInv | src/client/token_broker.rs:49-115 | the pairing invariant holds in every state of every run |
| Broker.HostTokenBroker.Begin | src/client/token_broker.rs:67-88 | refused exactly with eight pending, otherwise a fresh id with an open channel |
| Broker.HostTokenBroker.Complete | src/client/token_broker.rs:49-60 | true exactly for a pending request whose waiter still listens; the request is gone either way and the answer reaches that channel only |
| Broker.HostTokenBroker.DropWaiter | src/client/token_broker.rs:97-115 | dropping a waiter removes its request and its channel and nothing else, and closes its request for good |
| SessionEnd.NoLostWakeup | src/client/im_client.rs:202-220 | a watcher parked without a notification watches the current generation, or a store after its check has yet to notify |
| SessionEnd.EndedWatcherCanWake | src/client/im_client.rs:209-220 | with every notification issued, a parked watcher of an ended generation can wake |
| SessionEnd.ReturnsOnlyWhenEnded | src/client/im_client.rs:209-220 | a watcher returns only when its generation has ended |
| SessionEnd.ReleasedProgress | src/client/im_client.rs:209-220 | a released watcher stays released under every step of the others, and each step of its own brings it closer to returning |
| SessionEnd.ReleasedReturns | src/client/im_client.rs:209-220 | three steps of its own suffice, however they interleave |
| SessionEnd.RunInv | src/client/im_client.rs:202-220 | the wakeup invariant holds in every state of every run |
| SessionEnd.GenerationSignal.StoreGeneration | src/client/im_client.rs:355-360 | after store and notify every parked watcher can wake |

## Left out

- The wait loop of `SessionEndWatch::ended` is a state machine, not a method: it need not end while its generation lasts.
- Teardown of the client as a cause of session end; only generation changes are modelled.
- SessionEnd.RunInv: a watched generation is taken never to be stored again once left, so the wrap-around of the 64-bit generation counter is outside.
- PushSafety.RunInv: generations strictly grow while a process runs and secrets are never drawn twice; 64-bit wrap-around of the generation is outside.
- Broker.RunInv: request ids are unbounded, so 64-bit wrap-around of the id counter is outside.
- PushLifecycle.PushLifecycle.Run: cancellation is modelled at the awaits of network calls; the time limit itself is not.
- PushTraffic.PutsCarryTheirInput: the expected version and the expiry time of the request are outside.
- PushSafety.ConfigureKeeps: whether a base URL is acceptable is a flag of the client, and the file-level checks of opening a journal are one outcome, opened or not.
- PushSafety.DiskSaveKeeps: a rename whose directory sync failed counts as done; its later loss in a power cut is outside.
- PushConvergence.Convergence: the answer to an inspection is taken to report the binding active or not, with no further model of the server.
- KernelRuns.NeverBackwards: a commit whose future is dropped between the store write and the cache update is not a step of these runs; `CutKeepsDisk`, `LowersMaximumIff` and `RestartHealsCut` say what it does and when it lowers the maximum.
- KernelRuns.RunInv: damage to the store takes one copy of the maximum at a time; both at once is `OlderCommittedIffBothLost`. A failed write leaves the store as it was.
- Keystate documents, release manifests, development mode, bootstrap sources and health policy of the access kernel.
- UrlRoundTrip.RoundTrip: IPv6 text is any pair of functions where reading undoes writing and the text is hexadecimal digits and colons.
- ContentNormal.ReceivedIsNormal: JSON payloads and plugin envelopes are read and written by any codec that reads back the payloads the converters write; protobuf bytes are outside.
- ContentPreview.PreviewFate: floating-point fields are reals; lower-casing of file formats is ASCII.
- Mention.SortedDescending: the library's stable sort is modelled as insertion, which gives the same table.
- Lock poisoning, the wasm32 branches, HTTP, TLS, signature verification and hashing.
- Request paths, `mentions_from_content`, `verbatim_text`, builders, event forwarding, configuration merging, bindings, examples, benches and scripts, which would only add easy members.
