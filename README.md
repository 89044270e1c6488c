# Hydraulic installation assistant — verified model

This project models the decision logic of a hydraulic-installation web
application and proves properties about it. The application is a Flask relay
(`server.py`) in front of a Pico W NFC reader. Beside it runs a Next.js
application with these parts:

- API routes for hose couplings, valves, hydraulic inputs, users and the NFC proxy;
- two admin screens;
- the installation stepper;
- the verification page.

The relay is modelled with these parts:

- a bounded-retry poller: a method with a loop, proved against a recursive specification of the run;
- a pure validator, tag table and recommendation engine;
- a `RelayState` class for the module globals and the configuration cache. The cached configuration's `connections` field is the live hose table itself, not a copy.

Each API route becomes a pure function from the request body (a map from keys
to JavaScript values) to an HTTP rejection or an accepted value. Database
results, environment checks and upstream answers are parameters.

The components become two kinds of members:

- pure functions for filtering, paging and step selection;
- classes for the state that click handlers update.

The NFC chain is modelled end to end. The relay answers with a position of
"unknown", and the proxy route drops it. So on the verification page a step
that requires a scan can only pass when it has no `nfc_position` at all
(`VerificationPage.ProxiedScanPassesOnlyWithoutPosition`).

Shared modules give the JavaScript semantics the sources rely on:

- `Js`: truthiness, `||`, the numeric conversion behind `<`/`>`, and `===`;
- `Text`: `includes`, ASCII `toLowerCase`, `join` and number formatting;
- `Seqs`: `filter`, `find`/`findIndex`, and de-duplication through a `Set`;
- `Http`: the reply type.

Where the specification text and the code disagree, the model follows the
code. The one such case is the retry policy. The specification says every
failed attempt sleeps before the next one. In `server.py:104-109`, a body that
is not a dictionary or lacks `tag_detected` retries at once without sleeping,
and the model does the same.

## Model

| member | source | states |
|---|---|---|
| `Relay.ConnectToPico` | server.py:89-142 | The loop's result, GET count and sleep count are exactly those of the recursive specification `Poll` of the retry policy. |
| `Relay.PollBounds` | server.py:91-135 | At least 1 and at most `MAX_RETRIES` (3) GETs; at most 2 sleeps, always fewer than the GETs. |
| `Relay.PollFirstValid` | server.py:96-118 | The first attempt with a dictionary holding `tag_detected` ends the run. The result has position "unknown", no error, and the body's tag and timestamp. That takes exactly k+1 GETs and one sleep per earlier exception. |
| `Relay.PollAllFail` | server.py:120-142 | Without a valid answer the result is exactly `{false, None, None, fixed message}`. That takes 3 GETs, with one sleep per exception except on the last attempt. |
| `Relay.PollSucceedsIff` | server.py:89-142 | The poller reports no error exactly when one of the first three answers is valid. |
| `Relay.PollFromBounds` | server.py:91-135 | From attempt k on, at most 3-k GETs and fewer sleeps than remaining attempts. |
| `Relay.PollFromExhausted` | server.py:120-142 | From attempt k with no valid answer left: the fixed failure record, every remaining attempt used, sleeps counted by exceptions. |
| `Relay.PollFirstValidFrom` | server.py:96-118 | From attempt j to the first valid attempt k: that attempt's record, k+1-j GETs. |
| `Relay.GetNfcStatus` | server.py:144-158 | 200 with the poller's result. When a fault escapes the poller: 500 with the empty record and the prefixed fault text. |
| `Relay.ValidateConnection` | server.py:160-171 | Accepts exactly when the reference table of required positions allows the position, and the message is empty exactly when accepted. DOUBLE accepts everything. Each rejection carries its own message: supply not left or return not right under SINGLE, and the leak hose not at the leak port under LEAK. |
| `Relay.DefaultPositionsValid` | server.py:43-47 | Every hose at its default position passes the validator under every system type. |
| `Relay.GetTagInfo` | server.py:173-182 | A known id gives its table entry; any other id gives the all-"Onbekend" record, and its type reads "Onbekend" exactly for unknown ids. |
| `Relay.GetRecommendations` | server.py:184-217 | One warning per disconnected supply or return hose, supply first. A leak hose gives the leak label with 3 hoses. Supply and return together give the double label; otherwise single, with 2 hoses. Pressure and flow are fixed. |
| `Relay.ParametersFor` | server.py:219-254 | Each system type gets its own numeric row (max pressure 300/350/250), with the working pressure 50 bar below the maximum. |
| `Relay.DualSourceOfTruth` | server.py:197-254 | The recommendation's "300 bar" agrees with the numeric max pressure only under SINGLE. |
| `Relay.HoseTable.constructor` | server.py:43-47 | The hose table starts with every hose disconnected at its default position. |
| `Relay.RelayState.constructor` | server.py:40-47 | The globals start as SINGLE, an empty cache and the default hose table. |
| `Relay.RelayState.UpdateConfiguration` | server.py:219-254 | The cache holds the configuration derived from the current system type and the live hose table. |
| `Relay.RelayState.GetConfig` | server.py:256-263 | The first call fills the cache; every later call leaves it unchanged; the answer renders the cached configuration. |
| `Relay.GetConfigTwice` | server.py:256-263 | On the initial globals, two calls answer the same: the SINGLE numbers, the default hoses and both missing-hose warnings. |
| `SlangKoppelingen.MissingFields` | app/api/slang-koppelingen/route.ts:92 | Exactly the falsy required fields, in list order. |
| `SlangKoppelingen.ValidatePost` | app/api/slang-koppelingen/route.ts:78-122 | Accepts exactly when all 11 fields are truthy, the type is one of the four, and both ratings are in range. The first failing check decides the 400 message (missing list, type, pressure, flow). |
| `SlangKoppelingen.PostNeverAcceptsZeroRating` | app/api/slang-koppelingen/route.ts:78-122 | A rating of 0, inside the stated range, is rejected anyway as a missing field. |
| `SlangKoppelingen.Post` | app/api/slang-koppelingen/route.ts:72-148 | An unreadable body gives 500; a validation failure gives its 400; a failed insert gives 500 with the database's message. Otherwise the reply is the inserted row. |
| `SlangKoppelingen.ValidatePatch` | app/api/slang-koppelingen/route.ts:151-192 | A missing id gives 400. Then type, pressure and flow are each checked only when present, with POST's bounds. The first failing check decides the 400 message, in the order type, pressure, flow. |
| `SlangKoppelingen.PostValidImpliesPatchValid` | app/api/slang-koppelingen/route.ts:101-192 | Every body POST accepts, PATCH accepts once it carries an id. |
| `SlangKoppelingen.PatchIdOnly` | app/api/slang-koppelingen/route.ts:151-192 | A PATCH that only names the row is accepted. |
| `SlangKoppelingen.Patch` | app/api/slang-koppelingen/route.ts:151-221 | Validation first. A failed update gives 500 with the database's message; otherwise the reply is the updated row. |
| `SlangKoppelingen.Get` | app/api/slang-koppelingen/route.ts:28-69 | A missing `machineId` gives 400 "Missing machineId". A missing service key gives the configuration error. A failed query gives 500 with its message. Otherwise the reply is the rows, or [] when there are none. |
| `SlangKoppelingen.Delete` | app/api/slang-koppelingen/route.ts:224-263 | A missing id gives 400. Then the configuration check, and a failed deletion gives 500 with its message. Success exactly when the deletion succeeds. |
| `MachineVentielen.InsertRow` | app/api/machine-ventielen/route.ts:75-127 | The inserted row copies the body fields. Port labels and order fall back to 'A', 'B' and 1 exactly when falsy. `actief` defaults to true when absent and is the body's own value otherwise. |
| `MachineVentielen.ValidatePost` | app/api/machine-ventielen/route.ts:69-91 | Accepts exactly when the five required fields are truthy, yielding the insert row. |
| `MachineVentielen.Post` | app/api/machine-ventielen/route.ts:69-140 | Body, validation, configuration and insert decide the reply in that order. A failed insert gives 500 with its message; otherwise the reply is the inserted row. |
| `MachineVentielen.UpdatePayload` | app/api/machine-ventielen/route.ts:147 | The payload is the body without `id`, every other key unchanged. |
| `MachineVentielen.UpdatePayloadRoundTrip` | app/api/machine-ventielen/route.ts:147 | Putting the id back onto the payload gives the body again. |
| `MachineVentielen.ValidatePatch` | app/api/machine-ventielen/route.ts:144-151 | A missing id gives 400; otherwise the payload without `id`. |
| `MachineVentielen.Patch` | app/api/machine-ventielen/route.ts:144-191 | A missing id gives 400, a missing service key the configuration error, and a failed update 500 with its message. Otherwise the reply is the updated row. |
| `MachineVentielen.Get` | app/api/machine-ventielen/route.ts:27-65 | A missing `machineId` gives 400. Then the configuration check, and a failed query gives 500 with its message. Otherwise the reply is the rows, or [] when there are none. |
| `MachineVentielen.Delete` | app/api/machine-ventielen/route.ts:195-232 | A missing id gives 400. Then the configuration check, and a failed deletion gives 500 with its message. Success exactly when the deletion succeeds. |
| `HydraulicInputs.ValidatePost` | app/api/machine-hydraulic-inputs/route.ts:45-64 | Accepts exactly when `machine_id`, `input_nummer` and `kleur` are truthy. The record copies them, and `volgorde` falls back to `input_nummer` when falsy. |
| `HydraulicInputs.PostIgnoresOtherFields` | app/api/machine-hydraulic-inputs/route.ts:59-64 | Bodies that agree on the four record fields give the same record, whatever else they carry. |
| `HydraulicInputs.Post` | app/api/machine-hydraulic-inputs/route.ts:45-83 | Validation, then the insert. A failed insert gives the route's own 500 message; otherwise the reply is the inserted row. |
| `HydraulicInputs.ValidatePatch` | app/api/machine-hydraulic-inputs/route.ts:86-104 | A missing id gives 400. The update holds exactly `input_nummer`, `kleur` and `volgorde`. |
| `HydraulicInputs.Patch` | app/api/machine-hydraulic-inputs/route.ts:86-124 | A missing id gives 400. A failed update gives 500 "Failed to update hydraulic input"; otherwise the reply is the updated row. |
| `HydraulicInputs.Get` | app/api/machine-hydraulic-inputs/route.ts:9-42 | A missing `machineId` gives 400, and a failed query gives the route's own 500 message. Otherwise the reply is the rows, or [] when there are none. |
| `HydraulicInputs.Delete` | app/api/machine-hydraulic-inputs/route.ts:127-159 | A missing id gives 400; otherwise the deletion's outcome. |
| `UsersRoute.AdminAccess` | app/api/users/route.ts:60-94 | No session gives 401. An e-mail containing "admin", or a profile role of 'admin', admits. A non-admin e-mail with the service client unconfigured gives 500 "Internal server error", because the client helper throws. A failed lookup gives 500 in GET only. Everyone else gets 403. |
| `UsersRoute.FindUser` | app/api/users/route.ts:53 | The first authentication user whose id is the profile's `user_id`, or none. |
| `UsersRoute.EmailFor` | app/api/users/route.ts:53 | The matched user's address when that user has a non-empty one. 'Unknown' when there is no user list, no matching user, or a match without an address. |
| `UsersRoute.MergeEmails` | app/api/users/route.ts:50-54 | One entry per profile, in order, each the profile with its e-mail set. |
| `UsersRoute.MergePreservesProfiles` | app/api/users/route.ts:116-120 | Merging changes only `email`. The matched user's non-empty address is used; with no match, or a match without an address, the value is 'Unknown'. |
| `UsersRoute.Get` | app/api/users/route.ts:22-126 | With `verified=true` and an e-mail the session is never checked. Otherwise the admin check's rejection is the reply. An authorized request succeeds exactly when the service is configured and the profile query succeeds; the missing configuration and the failed query each give their 500. Success lists the merged profiles. |
| `UsersRoute.BypassIgnoresSession` | app/api/users/route.ts:29-57 | Under the URL bypass the reply does not depend on the session or the profile lookup. |
| `UsersRoute.Patch` | app/api/users/route.ts:129-183 | A missing body gives 500 and a missing userId or role 400, both before authentication. Then: no session gives 401; every other rejection of the admin check is propagated, so a failed lookup reads as "not admin" and gives 403. An admin with the service unconfigured gets 500, and a failed update gets 500 with its message. Success exactly for an admin, a configured service and a successful update. |
| `NfcRoute.GetAsWritten` | app/api/nfc/route.ts:6-95 | Every reply is fixed. An upstream error echoes its status under 500. A relay reporting the Pico W down gets 503 with its details. Any other answer is a success that forwards the tag and timestamp. A "fetch failed" TypeError gets the 503 connection error, an "AbortError" the 504 timeout, and any other exception 500 "Unknown error". The position is never forwarded. |
| `NfcRoute.SuccessForwards` | app/api/nfc/route.ts:46-52 | A success forwards a truthy tag flag (else false) and the timestamp, with the stated defaults for the rest. |
| `NfcRoute.TimeoutAnsweredAsUnknown` | app/api/nfc/route.ts:16-93 | The fetch's own timeout, a "TimeoutError", is answered 500 "Unknown error" as written. |
| `NfcRoute.Get` | app/api/nfc/route.ts:6-95 | The corrected proxy: 504 exactly for an abort or timeout, and 500 "Unknown error" for any other exception that is not a failed fetch. It agrees with the code as written on everything except a "TimeoutError". |
| `NfcRoute.TimeoutAnsweredAsTimeout` | app/api/nfc/route.ts:70-81 | With the correction, the fetch's timeout gives the 504 timeout reply. |
| `MachineConfigAdmin.FilteredMachines` | components/admin/MachineConfigAdmin.tsx:382-394 | The machines kept, in order, are those matching the case-insensitive search on name, licence plate or type. The type filter must pass. "connected" keeps linked machines and "unconnected" keeps unlinked ones. |
| `MachineConfigAdmin.LinkFilterSplits` | components/admin/MachineConfigAdmin.tsx:388-393 | "connected" and "unconnected" split what "all" shows into two disjoint parts. |
| `MachineConfigAdmin.SearchIgnoresCase` | components/admin/MachineConfigAdmin.tsx:384-386 | Lower-casing the search text changes nothing. |
| `MachineConfigAdmin.NoFilterKeepsAll` | components/admin/MachineConfigAdmin.tsx:382-394 | Empty search with both filters at "all" shows every machine. |
| `MachineConfigAdmin.TotalPages` | components/admin/MachineConfigAdmin.tsx:396 | The least page count whose 8-item pages hold the list. |
| `MachineConfigAdmin.Page` | components/admin/MachineConfigAdmin.tsx:397 | Page p holds the items from index (p-1)*8 on, at most 8, clipped at the end of the list. |
| `MachineConfigAdmin.PagesPrefix` | components/admin/MachineConfigAdmin.tsx:396-397 | Pages 1..k together are the list's first min(8k, n) items. |
| `MachineConfigAdmin.PagesPartition` | components/admin/MachineConfigAdmin.tsx:396-397 | Pages 1..totalPages show every item exactly once, in order. |
| `MachineConfigAdmin.PageEmptyIff` | components/admin/MachineConfigAdmin.tsx:396-397 | A page is empty exactly when it lies beyond `totalPages`. |
| `MachineConfigAdmin.AllTypes` | components/admin/MachineConfigAdmin.tsx:398 | Each machine type exactly once. |
| `MachineConfigAdmin.FilteredConnections` | components/admin/MachineConfigAdmin.tsx:401-420 | Links without a machine are always kept. "unconnected" keeps nothing else. Other links are kept exactly when they match the six-field search and the type filter. |
| `MachineConfigAdmin.ConnectedLinksAreAll` | components/admin/MachineConfigAdmin.tsx:413-417 | Links count as connected, so "connected" shows what "all" shows. |
| `MachineConfigAdmin.ConnectionForInput` | components/admin/MachineConfigAdmin.tsx:373-375 | The first connection using the input, or none exactly when no connection uses it. |
| `MachineConfigAdmin.ConnectionForHose` | components/admin/MachineConfigAdmin.tsx:377-379 | The first connection using the hose, or none exactly when no connection uses it. |
| `MachineConfigAdmin.HoseLinker.constructor` | components/admin/MachineConfigAdmin.tsx:88-90 | Nothing selected, not connecting. |
| `MachineConfigAdmin.HoseLinker.HandleInputClick` | components/admin/MachineConfigAdmin.tsx:335-349 | Idle: select the input, clear the hose, start connecting. The same input again deselects and stops. Another input switches and clears the hose. Connecting implies an input is selected. |
| `MachineConfigAdmin.HoseLinker.HandleHoseClick` | components/admin/MachineConfigAdmin.tsx:351-371 | While connecting, an existing pair is rejected with no state change. Otherwise the pair is requested and the state resets to idle. When not connecting, only the hose is selected. A requested pair never exists yet. |
| `MachinesAdmin.InputCount` | components/admin/MachinesAdmin.tsx:325 | The chosen count, or 2 when unset or 0. |
| `MachinesAdmin.AddNewMachine` | components/admin/MachinesAdmin.tsx:311-348 | Exactly n inputs (none for n ≤ 0 or a failed machine insert). Input i has number and order i, label "Input i", the stored colour, the function name, and ratings 200 and 50. The insert is issued exactly when there is an input. |
| `MachinesAdmin.StoredColours` | components/admin/MachinesAdmin.tsx:329 | Stored colours are red, blue, yellow for 1-3 and green from 4 on. |
| `MachinesAdmin.PreviewMatchesStoredUpToFour` | components/admin/MachinesAdmin.tsx:497-502 | The preview's colour equals the stored one exactly for inputs 1-4. From 5 on it shows orange, purple, black or white instead of green. |
| `MachinesAdmin.SaveMachine` | components/admin/MachinesAdmin.tsx:270-294 | No update without an edited machine. Otherwise the update names that machine and carries the thirteen columns as the form holds them; the id and joined inputs are never sent. |
| `MachinesAdmin.DeleteMachine` | components/admin/MachinesAdmin.tsx:373-387 | After confirmation: the machine's inputs and attachment links, then the machine row last. Nothing without confirmation. |
| `InstallationStepper.DynamicSteps` | components/installation/InstallationStepper.tsx:68-127 | Exactly three steps, "Stap 1" to "Stap 3". Each is the first explanation, picture or NFC step when one exists, else its placeholder. |
| `InstallationStepper.PictureWithNfc` | components/installation/InstallationStepper.tsx:69-71 | A step with both picture and NFC serves as picture and NFC step but never as explanation. |
| `InstallationStepper.Stepper.constructor` | components/installation/InstallationStepper.tsx:14-19 | Step 0, dialog closed, loading, no steps. |
| `InstallationStepper.Stepper.Load` | components/installation/InstallationStepper.tsx:22-129 | A missing installation, machine or step list sets its own error and keeps the steps. Success builds the dynamic steps. Loading ends either way. |
| `InstallationStepper.Stepper.HandleNext` | components/installation/InstallationStepper.tsx:134-140 | Forward while a next step exists, else open the dialog. The index stays within the steps. |
| `InstallationStepper.Stepper.HandleBack` | components/installation/InstallationStepper.tsx:142-144 | Back unless at step 0. |
| `VerificationPage.CheckNfcStatus` | app/verification/page.tsx:58-81 | Passes exactly for a detected tag on a scan step whose position is strictly equal. The status line changes only when a tag was detected. A fetch error fails. |
| `VerificationPage.ProxiedScanPassesOnlyWithoutPosition` | app/verification/page.tsx:63-65 | Through the proxy, as written or corrected, a scan step passes only when it has no `nfc_position`, and then any detected tag passes. |
| `VerificationPage.FromProxy` | app/verification/page.tsx:60-61 | The page reads the proxy's tag flag and position. |
| `VerificationPage.Verification.constructor` | app/verification/page.tsx:19-23 | No steps, step 0, loading, waiting status, not complete. |
| `VerificationPage.Verification.Load` | app/verification/page.tsx:36-52 | `data \|\| []` on success, steps kept on error, loading ends. |
| `VerificationPage.Verification.HandleNextStep` | app/verification/page.tsx:83-98 | A scan step holds until the check passes. Otherwise it advances and resets the status, or completes on the last step. A completing scan step leaves the status at "Tag correct gescand". |
| `VerificationPage.Verification.Previous` | app/verification/page.tsx:160 | The step becomes max(0, step-1). |

## Left out

- Every Supabase query, every `fetch`/`requests` call, router navigation, toasts, `confirm` dialogs and JSX rendering. Their results are parameters: `DbResult`, `Upstream`, a scripted peer, a `confirmed` flag.
- Flask setup, CORS, the `after_request` hook, the index route, logging and `app.run`. Real timeouts are left out too: a sleep is a counter and the peer is a script of outcomes.
- Concurrent requests racing on the relay's globals: the model is sequential.
- `connection_history`, and any change to `system_type` or `connected_hoses`: nothing in `server.py` writes them after start-up. `system_type` is a parameter.
- The except branch of `get_config` (server.py:264-269): rendering the modelled configuration cannot fail.
- The `rpc('increment')` order bump of the coupling and valve routes: it passes an RPC builder as a column value, so its effect cannot be stated from the code.
- `lib/api.ts` and its axios retry interceptor: async network client code.
- JavaScript numbers are integers. A string converts only when it is an optionally signed run of decimal digits. Objects convert to NaN. Fractions, exponents, whitespace and arrays are not modelled.
- `toLowerCase` lower-cases ASCII letters only.
- A request body is a JSON object, or unreadable (500). Arrays and primitives as bodies are not modelled, and objects nested in a body are never equal to anything.
- `MachinesAdmin.AddNewMachine`: a count that `parseInt` made NaN is treated like an unset count. The error of the inputs insert is not modelled (the source ignores it), and neither is the machine row's own insert payload.
- `MachinesAdmin.DeleteMachine`: gives the order of the deletions issued. The source ignores the two dependent deletions' errors; an exception ends the sequence early and is not modelled.
- `MachineConfigAdmin.HoseLinker.HandleHoseClick`: returns the pair whose creation it requests. The insert itself, and the reload after it, are not modelled.
- `MachineConfigAdmin`: the dialog search fields and the machine–attachment link dialogs are left out.
- `InstallationStepper`: `machineSpecs` only feeds the display. Closing the completion dialog navigates away. Both are left out.
- `VerificationPage.Verification.HandleNextStep` requires loaded steps: with none, the page already fails rendering `steps[currentStep]`. The session redirect is left out.
- `Relay.ParametersFor`: the contract fixes each type's maximum pressure and the 50-bar margin. The flow rates and temperatures are stated only for SINGLE, in `Relay.GetConfigTwice`.

## Findings

| source | as written | input that shows it | evidently intended | confidence | as-written member | corrected member |
|---|---|---|---|---|---|---|
| app/api/nfc/route.ts:16 | The request is cancelled by `AbortSignal.timeout(5000)`, and only an error named "AbortError" is treated as a timeout (line 70). | A relay that does not answer within 5 s. The fetch rejects with a DOMException named "TimeoutError", and the route answers 500 "Unknown error". | A timed-out relay gets the 504 "Timeout" reply with connectionStatus "timeout". | not executed | `NfcRoute.TimeoutAnsweredAsUnknown` | `NfcRoute.TimeoutAnsweredAsTimeout` |
