# Partner registration and wallet-service core, modelled in Dafny

This project models the decision and data-shaping logic of a small Express
back end with a partner-registration service over MongoDB:

- `app/service.js`. Process-wide state: the `initialized` flag, the lock and the storage, with `initialize`, `shutDown` and `getInstance`. Also the two authentication paths of `getInstanceWithAuth` (session token or signature, with the support-staff exception), `login`'s reuse-or-create session rule, `joinPartner`, the validation and defaults of `createWallet`, the wallet-redaction branch of `getStatus`, and `getMainAddresses`.
- `app/storage.js`. The storage façade's database handle (`connect` never reconnects; `disconnect` drops the handle only after a successful close), the check-then-insert `insertPartner`, and `fetchPartner`.
- `app/model/partner.js`. `Partner.create` and `Partner.fromObj`.
- `app/errors/errordefinitions.js`. The constant error table, the error objects derived from it, and the `codes` identity map.

Modules follow the files: `ErrorDefinitions`, `Partner`, `Storage` and `Service`. Three support modules sit beside them:

- `Wrappers` holds `Option` and `Result`.
- `Js` holds JavaScript primitive values, truthiness, `||`, property lookup and loose equality.
- `Failures` holds what a callback can receive, or that an exception was thrown.

Module state that the source updates in place is modelled as classes:

- `Storage.Storage` holds the handle and the partner collection.
- `Service.Process` holds the module-level variables.
- `Service.Service` is an instance.

Their methods state the whole new state. The pure rules are functions, with lemmas stating the properties the code promises.

Everything the files call but do not define becomes a parameter:

- the MongoDB driver's answers
- `getSession`, `storeSession`, `fetchCopayerLookup`, `fetchAddresses` and `fetchWallet`
- the signature check `_getSigningKey`
- the Session model's validity test
- the clock and fresh session tokens

`app/model/session.js`, `app/errors/clienterror.js`, `app/lock.js` and the `Utils`, `Constants` and `Defaults` modules are not part of this model.

Where the code and the behaviour documented for it differ, the model follows the code:

- `insertPartner` hands its callback the driver's insert acknowledgement, not the bare Partner.
- `initialize` with an injected storage leaves `initialized` as it was.
- Without `includeExtendedInfo`, `getStatus` strips `customData` from the requester's own record too.
- The index `connect` creates on `partnerId` is not declared unique.

## Model

| member | source | states |
|---|---|---|
| `ErrorDefinitions.ErrorObjects` | app/errors/errordefinitions.js:12-14 | one error object per table entry, keyed by its code, carrying that code and the entry's message; no other keys |
| `ErrorDefinitions.Codes` | app/errors/errordefinitions.js:16-18 | `codes` has exactly the table's names and maps each to itself |
| `ErrorDefinitions.Definitions` | app/errors/errordefinitions.js:7-20 | the error objects and `codes` are both defined on exactly PARTNER_ALREADY_EXISTS and PARTNER_NOT_FOUND |
| `ErrorDefinitions.CodeOf` | app/errors/errordefinitions.js:16-18 | `Errors.codes.X` is X for a defined name and undefined for any other |
| `ErrorDefinitions.ErrorObject` | app/errors/errordefinitions.js:12-14 | `Errors.X` is the ClientError (X, message of X) for a defined name and undefined otherwise |
| `ErrorDefinitions.DefinedErrors` | app/errors/errordefinitions.js:7-10 | the two errors and their messages, "Partner already exists" and "Patner not found" (typo kept) |
| `ErrorDefinitions.ServiceNamesUndefined` | app/errors/errordefinitions.js:7-10 | NOT_AUTHORIZED, WALLET_ALREADY_EXISTS and WALLET_NOT_FOUND, used by the service, are undefined |
| `Partner.Create` | app/model/partner.js:3-14 | `createdOn` is the clock in whole Unix seconds (floor of millis / 1000); the status is always truthy |
| `Partner.FromObj` | app/model/partner.js:16-18 | `fromObj` builds the same record as `create` for the same clock |
| `Partner.CreateCopiesFields` | app/model/partner.js:8-12 | partnerId, passwd, partnerName and partnerCode are copied verbatim; status is the given one when truthy, else "normal" |
| `Partner.CreateIgnoresOtherFields` | app/model/partner.js:6-13 | changing any option other than the five read ones leaves the record unchanged |
| `Partner.CreateWithoutOptions` | app/model/partner.js:4 | absent options act as an empty object: copied fields undefined, status "normal" |
| `Storage.FindOne` | app/storage.js:94-100 | the lookup yields a stored partner matching the query, or nothing exactly when none matches |
| `Storage.FindAll` | app/storage.js:119-121 | the query yields exactly the stored partners that match it, no more than stored |
| `Storage.LookupMeansSameId` | app/storage.js:94-98 | the lookup by `partnerId` finds something iff a stored partner has the same key |
| `Storage.InsertKeepsIdsUnique` | app/storage.js:90-110 | appending a partner whose key the lookup did not find keeps partner ids unique |
| `Storage.Storage.constructor` | app/storage.js:34-37 | the handle is the one given (`opts.db`) |
| `Storage.Storage.Connect` | app/storage.js:47-67 | with a handle held: success, same handle; otherwise the connection's handle is kept, or its error reported and no handle kept |
| `Storage.Storage.Disconnect` | app/storage.js:70-77 | the handle is dropped only when close succeeds; a close error keeps it; with no handle the call throws |
| `Storage.Storage.InsertPartner` | app/storage.js:84-116 | no handle: throws; lookup error: passed on, no write; existing id: PARTNER_ALREADY_EXISTS, no write; else exactly `Partner.create(opts)` appended and acknowledged, or the insert error with no write; unique ids are preserved |
| `Storage.Storage.FetchPartner` | app/storage.js:118-126 | a list, never null: the partners matching `{patnerCd: code}`; driver errors passed on |
| `Storage.FetchByCodeFindsNothing` | app/storage.js:119-121 | no partner document has `patnerCd`, so any real code fetches the empty list |
| `Storage.FetchByNullishCodeFindsAll` | app/storage.js:119-121 | a null or undefined code fetches every partner |
| `Storage.PartnersWithCode` | app/storage.js:118-121 | the intended query: exactly the partners whose partnerCode equals the code |
| `Storage.FetchPartnerMissesStoredCode` | app/storage.js:118-121 | a partner registered with code "P01" is not fetched by "P01", and is found by the intended query |
| `Service.MissingFields` | app/service.js:49-51 | exactly the required names absent from the options, the first being the earliest absent one |
| `Service.CheckRequired` | app/service.js:49-55 | no error iff every required name is present; otherwise "Required argument X missing." for the first absent X |
| `Service.CheckRequiredAsWritten` | app/service.js:49-51 | as written, every call throws a ReferenceError, whatever the options hold |
| `Service.CheckRequiredAsWrittenRejectsCompleteOptions` | app/service.js:49-51 | options with every required argument pass the intended check and throw as written |
| `Service.SessionToStore` | app/service.js:221-231 | the stored session is freshly stamped; an existing valid session keeps its id and owner; otherwise a new session for this copayer and wallet |
| `Service.LoginReusesValidSession` | app/service.js:214-239 | a second login while the first session is valid returns the same token and stores no new session |
| `Service.NotAuthorized` | app/service.js:135 | the NOT_AUTHORIZED errors carry their message and no code |
| `Service.SessionPathNeedsValidSession` | app/service.js:152-177 | with a session token: success iff arguments present, initialized, stored session exists with that id and is valid, and the copayer exists; the wallet is the copayer's, not staff |
| `Service.SignaturePathNeedsSignature` | app/service.js:123-150 | without a token: success iff arguments present, initialized, copayer exists and is staff or signed validly; staff get `opts.walletId \|\| copayer.walletId`, others the copayer's wallet |
| `Service.WithSignature` | app/service.js:123-150 | success needs copayerId, message and signature, an initialized process and a found copayer, and grants the given copayerId |
| `Service.WithSession` | app/service.js:152-177 | success needs copayerId and session, an initialized process, a stored valid session and a found copayer; never grants staff rights |
| `Service.Authenticate` | app/service.js:179-180 | a process that is not initialized refuses every request; success grants the copayerId given |
| `Service.AuthenticateRefusals` | app/service.js:122-181 | on the session path an absent, mismatched or invalid session is refused with NOT_AUTHORIZED "Session expired"; on the signature path a non-staff copayer with a bad signature gets NOT_AUTHORIZED "Invalid signature" |
| `Service.MissingCopayerNotAuthorized` | app/service.js:122-181 | with only the arguments its path requires (copayerId and session, or copayerId, message and signature), a copayer the lookup does not find is refused with NOT_AUTHORIZED "Copayer not found" on either path |
| `Service.Service.constructor` | app/service.js:40-47 | an instance borrows the process lock and storage; walletId and copayerId start undefined, the staff flag false (unset and so falsy in the source) |
| `Service.Service.Login` | app/service.js:208-241 | a fetch error stores nothing; otherwise exactly one `storeSession` of the session `SessionToStore` picks, then its id, or the store error |
| `Service.Service.JoinPartner` | app/service.js:254-259 | delegates to `insertPartner`, case by case: no storage or no handle throws; a lookup or insert error is passed on; a taken partnerId gives PARTNER_ALREADY_EXISTS; otherwise the record is appended and acknowledged; nothing is written on error, and ids stay unique |
| `Service.Service.GetMainAddresses` | app/service.js:474-489 | the fetched addresses shaped by `SelectMain`, reversal done in place; a fetch error passed on |
| `Service.ReverseInPlace` | app/service.js:484 | the array afterwards is the reversal of its old contents |
| `Service.Process.constructor` | app/service.js:31-34 | at load time: not initialized, no lock, no storage |
| `Service.Process.Initialize` | app/service.js:57-76 | lock set from options; truthy `request` throws; an injected storage is adopted and `initialized` left as it was; else `initialized` set only when the new storage connects, with that storage |
| `Service.Process.ShutDown` | app/service.js:88-95 | not initialized: no-op, the storage's handle and collection untouched; else `initialized` cleared only when disconnect succeeds |
| `Service.Process.GetInstance` | app/service.js:102-110 | null iff not initialized; otherwise a fresh unauthenticated instance sharing lock and storage |
| `Service.Process.AuthenticateBySignature` | app/service.js:123-150 | succeeds exactly when `WithSignature` does, with the instance carrying its identity; otherwise fails with its error |
| `Service.Process.AuthenticateBySession` | app/service.js:152-177 | succeeds exactly when `WithSession` does, with the instance carrying its identity; otherwise fails with its error |
| `Service.Process.GetInstanceWithAuth` | app/service.js:179-180 | a truthy session token selects the session path; the instance carries exactly the identity `Authenticate` grants (copayerId, walletId, staff flag), or its refusal |
| `Service.MainOnly` | app/service.js:481-483 | exactly the fetched addresses whose `isChange` is not `true` |
| `Service.MainOnlyAppend` | app/service.js:481-483 | rejecting change addresses distributes over concatenation, so original order is kept |
| `Service.SelectMain` | app/service.js:481-485 | never more than the main addresses |
| `Service.SelectMainDrawsMainAddresses` | app/service.js:481-485 | nothing returned is a change address, and everything returned was fetched |
| `Service.SelectMainForward` | app/service.js:481-485 | no reverse, no positive limit: exactly the main addresses in order; limit k: the first min(k, count) |
| `Service.SelectMainNewestFirst` | app/service.js:484-485 | reverse then limit k: the last min(k, count) main addresses, newest first |
| `Service.SelectMainExample` | app/service.js:474-489 | [A (change), B, C, D] reversed with limit 2 gives [D, C] |
| `Service.HideOthersCustomData` | app/service.js:426-429 | the copayer list keeps its length |
| `Service.OmitEach` | app/service.js:432-434 | the copayer list keeps its length |
| `Service.HideOthersCustomDataAt` | app/service.js:426-429 | position by position: the requester's record unchanged, every other copayer minus `customData` |
| `Service.OmitEachAt` | app/service.js:432-434 | position by position: each copayer minus the omitted keys |
| `Service.Redact` | app/service.js:422-434 | the copayer list keeps its length; the wallet keeps a subset of its fields, each with its value |
| `Service.RedactWithExtendedInfo` | app/service.js:423-429 | with extended info: wallet fields untouched, copayers same length and order, only others' `customData` removed |
| `Service.RedactWithoutExtendedInfo` | app/service.js:423-435 | without it: the wallet loses the three key-ring fields and every copayer, requester included, the five sensitive ones; all other fields keep their values |
| `Service.StatusWallet` | app/service.js:419-438 | fetch errors passed on; a missing wallet throws (WALLET_NOT_FOUND is undefined); a found wallet is returned as `Redact` makes it, per `includeExtendedInfo` |
| `Service.WalletSettingsFor` | app/service.js:278-295 | an accepted wallet's coin and network are among the allowed values |
| `Service.WalletSchemePolicy` | app/service.js:288-295 | network defaults to "livenet"; the scheme flag is on unless it is boolean false; BIP44 iff on; P2PKH iff n is 1 and on; so P2PKH implies BIP44 |
| `Service.WalletValidationAndDefaults` | app/service.js:278-319 | acceptance needs name, m, n and pubKey present, a non-empty name and the copayer limits met; the coin is `opts.coin` or the default; `singleAddress` is the option's truthiness; a missing argument is a client error naming one of them |
| `Service.WalletLimitsCheckedFirst` | app/service.js:278-282 | an m/n combination the limit rule refuses is reported before any default is applied |

## Findings

| source | as written | input that shows it | evidently intended | confidence | as-written member | corrected member |
|---|---|---|---|---|---|---|
| app/service.js:50 | `checkRequired` calls `Utils.getMissingFields`, but `Utils` is only named in commented-out lines 15-18, so the call throws a ReferenceError. Every `getInstanceWithAuth` and `createWallet` call therefore throws. | `getInstanceWithAuth({copayerId: "c1", session: "token"})` | pass when every required argument is present; otherwise report the first missing one | high, not executed | `Service.CheckRequiredAsWritten` | `Service.CheckRequired` |
| app/storage.js:120 | `fetchPartner` queries the field `patnerCd`, which no partner document has | register a partner with partnerCode "P01", then `fetchPartner("P01")` returns [] | query `partnerCode` | medium, not executed | `Storage.Storage.FetchPartner` | `Storage.PartnersWithCode` |

The lemmas `Service.CheckRequiredAsWrittenRejectsCompleteOptions` and `Storage.FetchPartnerMissesStoredCode` exhibit the two inputs. The authentication and wallet-settings models use the corrected `CheckRequired`. `Storage.Storage.FetchPartner` keeps the query as written, and the intended query is stated beside it.

## Left out

- `app.js` and `app/routes/index.js`: HTTP routing, rendering and responses are I/O plumbing.
- The MongoDB driver itself is replaced by parameters carrying its answers. This covers the connection URI, index creation on `partnerId`, the `_id` it adds and the console output.
- Concurrency is not modelled. That includes the race between `insertPartner`'s lookup and its insert.
- `getStatus`'s parallel fan-out is not modelled. `getBalance`, `getPendingTxs` and `getPreferences` are not defined in the file, so only the wallet step is modelled (`Service.StatusWallet`).
- `getWalletFromIdentifier`: its hex path builds coin/network pairs and never calls back, and its parallel branches race on `walletId`.
- `createWallet` after normalisation is not modelled. It needs `fetchWallet`, `storeWallet` and `Wallet.create`. `pubKey` is never assigned (line 318), and `Errors.WALLET_ALREADY_EXISTS` is undefined, so no duplicate-wallet guarantee exists to state.
- `logout` only delegates to `removeSession`, which no modelled file defines.
- `_runLocked` and the Lock, `handleIncomingNotification`, `logi`/`logw` and npmlog output are foreign code or logging.
- The Session model is abstract: validity is a caller-supplied predicate, `touch` sets the activity stamp and `create` takes a fresh token.
- Numbers are integers: floating point and NaN are not modelled. Objects are maps of primitive values, and the `codes` property that sits beside the error objects in the exported object is a separate map.
- `Js.LooseEq`: JavaScript's `==` is modelled as equality plus `null == undefined`. Its string/number/boolean coercions are not modelled.
- `Service.WalletSettingsFor`: compares `n` with 1 strictly. JavaScript's `==` would also accept "1" and `true`. The copayer-limit rule, the default coin and the allowed coins and networks are parameters.
- `Service.Process.GetInstanceWithAuth`: compares the session token with the stored id as strings. A non-string token that `==` coerces is not modelled.
- `Service.Service.GetMainAddresses`: the limit is absent or an integer. Non-numeric limits that `>` and `_.take` coerce are not modelled.
- `Partner.Create`: options are absent or a plain object. A truthy non-object argument is not modelled.
- `Storage.Storage.InsertPartner`: the second callback argument on an error path is not modelled. It is undefined or the driver's partial result.
- The storage calls `getSession`, `storeSession`, `fetchCopayerLookup`, `fetchAddresses` and `fetchWallet` are not defined in `app/storage.js` (lines 34-126). With the process's own storage, which is the only way `initialize` sets `initialized` (`app/service.js:68-73`), each of them throws TypeError. The model assumes an injected storage that supplies them and takes their answers as parameters of `Service.Service.Login`, `Service.Process.GetInstanceWithAuth`, `Service.Service.GetMainAddresses` and `Service.StatusWallet`.
- `Service.CheckRequired` and `Service.WalletSettingsFor`: a one-argument ClientError gets no code, because `app/errors/clienterror.js` is not part of this model.
