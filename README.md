# TLS for Dummies — the wizard back end and the PEM check, in Dafny

This project models the two pieces of logic in the TLS tutorial application.

**The PKI wizard back end** (`server/index.js`) is an Express process. It keeps three
module-level records and one listener handle:

- `certificateData`: the CA, server and client certificates issued so far, the `created` flag and the log of OpenSSL steps run;
- `serverConfig`: `configured`, `port` and `status` of the demo HTTPS server;
- `clientConfig`: `configured`, `connectionTested` and `lastTest`;
- `httpsServer`: the HTTPS server handle.

Each POST endpoint is a guarded transition over this state, forming the chain
CA → server/client certificate → server configured → server running → connection tested.
Module `PkiWizard` (`pki_wizard.dfy`) models the state as the class `WizardApi`. It has
one method per endpoint, plus the generation handler's body `Dispatch` and its three
`switch` cases (`GenerateCa`, `GenerateServer`, `GenerateClient`), which
`GenerateCertificate` wraps. Each method updates the records in place. Its frame names the
only fields it may change, and its postcondition gives the whole new state. Every endpoint
method keeps the invariant `Valid()`. The four inner methods neither require nor ensure it,
because they model fragments of one handler. `Valid()` states:

- `created` is true exactly when all three certificates exist;
- a server or client certificate exists only once a CA does;
- every log entry is executed and numbered 1 to 8;
- the server is configured only with a server certificate;
- the status leaves `Stopped` only once the server is configured;
- while `Running`, the handle is an HTTPS server on the configured port;
- `connectionTested` holds exactly when a last test is recorded, and only for a configured client and server.

The generation endpoint is also specified by the pure function `Generation`. A `type`
other than `ca`, `server` or `client` matches no case of the `switch`. It still reaches the
closing `created` test and the success reply (`server/index.js:199-204`), and the model keeps
that path. The lemmas about `Generation` are all-inputs statements.

Every external effect is an input of the endpoint that performs it:

- the outcome of each OpenSSL command (`run: Command -> Exec`);
- the `existsSync` answers (booleans);
- the outcome of reading files, creating the server, `listen` and the download (`Exec`);
- how the outbound HTTPS probe ended (`Probe`);
- clock readings (strings and integers).

**The credential check** `checkCertificates` of the stand-alone demo server
(`server-fixed.js`) is the function `PemCheck.CheckCertificates`. It works over the two
file-presence flags and the two texts read. It accepts a certificate and a key only when
each contains the encapsulation boundaries of section 2 of RFC 7468. The test is
substring containment: the exact certificate boundary lines for the certificate, and only
the label-free prefixes `-----BEGIN` and `-----END` for the key.

The CA takes two OpenSSL commands: a key, then a self-signed certificate
(`server/index.js:65-98`). The server and client certificates take three: key, request and
CA signature (`server/index.js:107-117`, `156-166`).

One guard in the code cannot fire. `POST /api/server/start` checks for a server
certificate after checking `configured` (`server/index.js:245-247`). Configuring requires
that certificate, and nothing ever removes it. So `Valid()` makes the 400 reply
"Certificado do servidor não encontrado" unreachable, and `StartServer` proves this with
`assert false` in that branch.

## Model

| member | source | states |
|---|---|---|
| `PemCheck.Includes` | server-fixed.js:102-108 | JavaScript `includes` returns true exactly when the needle occurs at some index of the text. |
| `PemCheck.CheckCertificates` | server-fixed.js:84-120 | Null when either file is missing. Null when the certificate lacks either boundary line, whatever the key holds. Otherwise the credentials exist exactly when both files exist and were read, the certificate has both `CERTIFICATE` boundary lines and the key has a `-----BEGIN` and a `-----END`. They are then the two texts exactly as read. |
| `PemCheck.OccursPrefix` | server-fixed.js:106 | An occurrence of `a + b` in a text is an occurrence of `a`. This is why the label-free key markers are found wherever full boundary lines are. |
| `PemCheck.CertificateFramedIsKeyFramed` | server-fixed.js:102-108 | The key test is weaker than the certificate test: every text with both certificate boundary lines passes the key test. |
| `PemCheck.KeyLabelIsFree` | server-fixed.js:106-108 | With a valid certificate, a key framed by `-----BEGIN <any label>-----` … `-----END <any label>-----` is accepted and returned unchanged. |
| `PkiWizard.StepsFor` | server/index.js:86-97 | The entries a successful generation logs are one per command, in command order, numbered from 1 (CA), 3 (server) or 6 (client), all executed and within 1..8. |
| `PkiWizard.FirstFailure` | server/index.js:63-74 | The commands all completed exactly when there is no failure. A reported failure is the message of a failing command all of whose predecessors completed. |
| `PkiWizard.FirstFailureIs` | server/index.js:107-117 | When the commands before index j complete and command j throws, the failure reported is command j's message. Later commands do not matter. |
| `PkiWizard.Recorded` | server/index.js:119-146 | After a successful generation, the new entries follow the earlier log unchanged, and the certificate of that kind is the new one. The other certificates stay. `created` is never lowered. Exactness of `created`, "leaves need a CA" and the step-log properties are preserved. |
| `PkiWizard.Generation` | server/index.js:60-213 | An unknown `type` runs no command and succeeds. It keeps the log and the certificates, and it changes nothing at all when `created` is exact. Server or client without a CA gives a 400 with the record untouched. The first failing command gives a 500 with its message and the record untouched. Otherwise the record is Recorded's, and a success replies with the new record. |
| `PkiWizard.GenerationMonotone` | server/index.js:60-213 | Whatever a generation request does, the earlier log is a prefix of the new one, no certificate of any kind is dropped, and `created` is never lowered. |
| `PkiWizard.GenerationKeepsWf` | server/index.js:60-213 | A generation request keeps a well-formed certificate record well-formed: exact `created`, leaves only under a CA, and every log entry executed and numbered 1..8. |
| `PkiWizard.GenerationSucceeds` | server/index.js:63-146 | With every command succeeding and the CA guard passed, a generation of a known kind succeeds and leaves Recorded's record. |
| `PkiWizard.CertificateChain` | server/index.js:199-201 | From the initial record, when every command succeeds, generating CA, server and client in turn succeeds each time. It ends with `created` true and the three kinds' steps logged in order. |
| `PkiWizard.FullLogNumbered` | server/index.js:178-195 | The log of one CA, server and client generation is numbered 1, 2, …, 8 in order. |
| `PkiWizard.EffectivePort` | server/index.js:229 | `port \|\| 8443`: the requested port when present and non-zero, else 8443. It is never 0. |
| `PkiWizard.HandshakeTime` | server/index.js:405 | `Math.floor(totalTime / 2)`: the h with 2h ≤ totalTime < 2h + 2. |
| `PkiWizard.ProbeOutcome` | server/index.js:365-427 | The probe resolves exactly for a parsed answer. The result then has `success` set, total time end − start, handshake time half of it rounded down, and the socket's protocol and cipher or the fallbacks TLSv1.3 / TLS_AES_256_GCM_SHA384. It also carries the socket's `authorized` flag, the answer's status and body, and the end time stamp. An unparsable body, a socket error and the timeout reject with their messages. |
| `PkiWizard.SecurityChecklist` | server/index.js:445-485 | Exactly five items with ids 1..5 in order. An item is completed exactly when its id is 4. |
| `PkiWizard.WizardApi.constructor` | server/index.js:33-51 | The process starts with no certificates and an empty log. The server is unconfigured on port 8443 and stopped. The client is unconfigured and untested, and there is no handle. `Valid()` holds. |
| `PkiWizard.WizardApi.GetCertificateStatus` | server/index.js:56-58 | Replies with the certificate record as it stands. Its empty frame means it changes nothing. |
| `PkiWizard.WizardApi.GenerateCertificate` | server/index.js:60-213 | The reply and the new certificate record are exactly what Generation gives for the old record. Only `certificateData` can change, and `Valid()` is kept. |
| `PkiWizard.WizardApi.Dispatch` | server/index.js:63-205 | The handler body: the reply and the new certificate record are exactly what Generation gives for the old record, for any starting record. |
| `PkiWizard.WizardApi.GenerateCa` | server/index.js:65-98 | Reports the first failing command of the CA's two, leaving the record untouched. On success it sets `ca` and appends steps 1 and 2. |
| `PkiWizard.WizardApi.GenerateServer` | server/index.js:100-147 | Reports the first failing command of the server's three, leaving the record untouched. On success it sets `server` and appends steps 3, 4 and 5. |
| `PkiWizard.WizardApi.GenerateClient` | server/index.js:149-196 | Reports the first failing command of the client's three, leaving the record untouched. On success it sets `client` and appends steps 6, 7 and 8. |
| `PkiWizard.WizardApi.GetServerStatus` | server/index.js:218-220 | Replies with the server record as it stands, changing nothing. |
| `PkiWizard.WizardApi.ConfigureServer` | server/index.js:222-238 | Without a server certificate it gives a 400 and changes nothing. Otherwise the server record becomes configured, on EffectivePort, with status `Configured`. Only `serverConfig` can change, and `Valid()` is kept. |
| `PkiWizard.WizardApi.StartServer` | server/index.js:240-303 | Guards in the code's order: not configured (400), then a missing key or certificate file (400), then a failed load or server creation (500). Each of these changes nothing. A `listen` that throws leaves the new handle but not the status (500). Otherwise status `Running` with a handle on the configured port. `Valid()` gives "running ⇒ configured ∧ handle present". |
| `PkiWizard.WizardApi.StopServer` | server/index.js:305-324 | With a handle: status `Stopped` and the handle cleared. Without one: nothing changes. It always succeeds, with the server record. |
| `PkiWizard.WizardApi.GetClientStatus` | server/index.js:327-329 | Replies with the client record as it stands, changing nothing. |
| `PkiWizard.WizardApi.ConfigureClient` | server/index.js:331-338 | Sets `configured` and changes nothing else. The new record does not depend on the old flag, so a second call is a no-op. |
| `PkiWizard.WizardApi.TestConnection` | server/index.js:341-442 | 400 unless server and client are configured, then 400 unless the server is running. A failed CA read or a rejected probe gives a 500, with the client record unchanged. A resolved probe sets `connectionTested` and `lastTest` to the result. Only `clientConfig` can change, and `Valid()` gives "tested ⇒ client configured". |
| `PkiWizard.WizardApi.MarkChecklistItem` | server/index.js:487-495 | Acknowledges with "Item <id> marcado como <status>" and changes no state. |
| `PkiWizard.WizardApi.DownloadCa` | server/index.js:498-509 | 404 unless a CA is recorded and its file exists, 500 when sending fails, otherwise the CA certificate path offered as `ca-cert.pem`. It changes nothing. |
| `PkiWizard.IssueAll` | server/index.js:60-201 | On a fresh process whose commands all succeed, the three generation requests leave `created` true and the three kinds' steps logged in order. The other records are untouched. |
| `PkiWizard.Walkthrough` | server/index.js:60-442 | The prerequisite chain can be completed. With every effect succeeding, the endpoints called in wizard order end with all certificates created, the server running, the connection tested and the log numbered 1..8. |

## Left out

- OpenSSL itself. Each command is an abstract success/failure outcome and a `Command` value, and no key or certificate content is modelled. The command strings are rendered as structured values (output paths, key size, validity, subject).
- File-system effects. `existsSync`, `readFileSync`, `mkdirSync` and `res.download` are inputs (booleans and `Exec` outcomes). `path.join` is modelled as joining with `/`, without normalisation.
- The HTTPS listener, the outbound probe and their callbacks. Each endpoint is atomic. Requests that interleave at an `await` or before the `close` callback are not modelled. Neither are errors `listen` reports asynchronously (a port in use). A second start while `Running` replaces the handle in the model. The model does not capture that the old server keeps listening, nor that the new `listen` on the same port then fails asynchronously.
- Console output. Every `console.log` and `console.error` in both files is dropped. In particular, `checkCertificates` only logs its "Invalid certificate format" and "Invalid private key format" errors (`server-fixed.js:103`, `107`, `117`), and `CheckCertificates` merges both into `None`.
- Clock readings are inputs. The `created`, `timestamp`, start and end times come from the caller, and handshake and total times are integers of milliseconds rather than "Nms" strings.
- Response texts that carry no state: the success `message` strings of configure, start and stop, and the `url` of start. Replies are modelled as `Success(value)` or `Failure(status, error)`. Error texts and statuses are kept.
- `PkiWizard.EffectivePort`: the requested port is an optional integer. Non-numeric JSON values (strings, booleans, NaN) that JavaScript's `||` would also test for truthiness are not modelled.
- `PkiWizard.ProbeOutcome`: the parsed JSON body is kept as its text. The fixed fields of the report (key exchange, subject, issuer, expiry) are built, but its contract does not restate them.
- Express routing, CORS, helmet and static-file serving, and the install-instructions text at server/index.js:512-548 (constant data).
- The rest of server-fixed.js: its routes and the `startServers` use of the check, which is plain server start-up.
- The React client (client/src), its API wrapper, test-ssl.js, generate-certs-forge.js and the Python servers: these are UI, integration and bootstrap scripts.
