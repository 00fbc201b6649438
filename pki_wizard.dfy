/** The REST back end of the five-step TLS tutorial wizard (server/index.js).
    The process keeps three module-level records and one listener handle:
    `certificateData` (the CA, server and client certificates issued so far and
    the log of OpenSSL steps run), `serverConfig` (port and lifecycle of the
    demo HTTPS server), `clientConfig` (whether the client was configured and
    the last connection test) and `httpsServer`. Every POST endpoint is a
    guarded transition over them, forming the prerequisite chain
    CA -> server/client certificate -> server configured -> server running
    -> connection tested.

    Every external effect is an input of the endpoint that performs it: the
    outcome of each OpenSSL command, the `existsSync` answers, the outcome of
    file reads, server creation and `listen`, and the outcome of the outbound
    HTTPS probe. Each endpoint runs atomically. */
module PkiWizard {
  import opened Wrappers

  /** Outcome of one external effect: it completed, or it threw with a message. */
  datatype Exec = Done | Failed(message: string)

  /** What an endpoint answers: a 200 JSON body, or an HTTP error status with the `error` text. */
  datatype Reply<T> = Success(value: T) | Failure(status: nat, error: string)

  // ---------------------------------------------------------------------------
  // Step 1: the certificate chain
  // ---------------------------------------------------------------------------

  /** The three certificates the wizard issues. */
  datatype Kind = CaCert | ServerCert | ClientCert

  /** The OpenSSL invocations the generation endpoint shells out to. */
  datatype Command =
    | GenRsa(keyOut: string, bits: nat)                                          // openssl genrsa
    | SelfSign(key: string, certOut: string, days: nat, subject: string)         // openssl req -new -x509
    | Request(key: string, csrOut: string, subject: string)                      // openssl req -new
    | SignWithCa(csr: string, caCert: string, caKey: string, certOut: string, days: nat) // openssl x509 -req

  /** One entry of the step log shown to the learner. */
  datatype Step = Step(step: nat, command: Command, description: string, executed: bool)

  /** What the server records about one issued certificate. */
  datatype CertInfo = CertInfo(commonName: string, validity: string, keySize: string,
                               algorithm: string, created: string, keyPath: string, certPath: string)

  /** The `certificateData` record. */
  datatype CertificateData =
    CertificateData(created: bool, ca: Option<CertInfo>, server: Option<CertInfo>,
                    client: Option<CertInfo>, steps: seq<Step>)

  const CaFirst: string := "CA deve ser criada primeiro"

  /** The `type` field of a generation request, when it names a certificate. */
  function ParseKind(t: string): Option<Kind> {
    if t == "ca" then Some(CaCert)
    else if t == "server" then Some(ServerCert)
    else if t == "client" then Some(ClientCert)
    else None
  }

  function Name(k: Kind): string {
    match k
    case CaCert => "ca"
    case ServerCert => "server"
    case ClientCert => "client"
  }

  /** `path.join(certDir, file)`. */
  function Path(dir: string, file: string): string { dir + "/" + file }

  function KeyPath(dir: string, k: Kind): string { Path(dir, Name(k) + "-key.pem") }
  function CsrPath(dir: string, k: Kind): string { Path(dir, Name(k) + "-csr.pem") }
  function CertPath(dir: string, k: Kind): string { Path(dir, Name(k) + "-cert.pem") }

  /** The distinguished name passed to `-subj`. */
  function Subject(commonName: string): string {
    "/C=BR/ST=SP/L=SaoPaulo/O=TLS Demo/CN=" + commonName
  }

  function CommonName(k: Kind): string {
    match k
    case CaCert => "TLS Demo CA"
    case ServerCert => "localhost"
    case ClientCert => "client"
  }

  /** The commands run, in order, to generate a certificate of kind `k`: a 2048-bit key,
      then a self-signed 365-day CA certificate, or a request signed by the CA for 90 days. */
  function Commands(dir: string, k: Kind): seq<Command> {
    match k
    case CaCert =>
      [GenRsa(KeyPath(dir, k), 2048),
       SelfSign(KeyPath(dir, k), CertPath(dir, k), 365, Subject(CommonName(k)))]
    case _ =>
      [GenRsa(KeyPath(dir, k), 2048),
       Request(KeyPath(dir, k), CsrPath(dir, k), Subject(CommonName(k))),
       SignWithCa(CsrPath(dir, k), CertPath(dir, CaCert), KeyPath(dir, CaCert), CertPath(dir, k), 90)]
  }

  /** The number of the first step-log entry a generation of `k` appends. */
  function FirstStep(k: Kind): nat {
    match k
    case CaCert => 1
    case ServerCert => 3
    case ClientCert => 6
  }

  /** The step-log entries a successful generation of `k` appends: one per command, in
      command order, numbered consecutively from FirstStep(k) (1-2 for the CA, 3-5 for the
      server, 6-8 for the client) and all marked executed. */
  function StepsFor(dir: string, k: Kind): (r: seq<Step>)
    ensures |r| == |Commands(dir, k)|
    ensures forall j :: 0 <= j < |r| ==>
              r[j].step == FirstStep(k) + j && r[j].command == Commands(dir, k)[j] && r[j].executed
    ensures forall j :: 0 <= j < |r| ==> 1 <= r[j].step <= 8
  {
    var c := Commands(dir, k);
    match k
    case CaCert =>
      [Step(1, c[0], "Gerar chave privada da CA", true),
       Step(2, c[1], "Criar certificado auto-assinado da CA", true)]
    case ServerCert =>
      [Step(3, c[0], "Gerar chave privada do servidor", true),
       Step(4, c[1], "Criar requisição de certificado do servidor", true),
       Step(5, c[2], "Assinar certificado do servidor com a CA", true)]
    case ClientCert =>
      [Step(6, c[0], "Gerar chave privada do cliente", true),
       Step(7, c[1], "Criar requisição de certificado do cliente", true),
       Step(8, c[2], "Assinar certificado do cliente com a CA", true)]
  }

  /** The record kept for a freshly generated certificate of kind `k`, stamped `now`. */
  function Issue(dir: string, k: Kind, now: string): CertInfo {
    CertInfo(CommonName(k), if k == CaCert then "365 days" else "90 days", "2048 bits", "RSA",
             now, KeyPath(dir, k), CertPath(dir, k))
  }

  /** The message of the first command of `cmds` that fails when the commands are run in
      order under `run`, or None when every one completes. */
  function FirstFailure(run: Command -> Exec, cmds: seq<Command>): (m: Option<string>)
    ensures m.None? <==> forall j :: 0 <= j < |cmds| ==> run(cmds[j]).Done?
    ensures m.Some? ==> exists j :: 0 <= j < |cmds| && run(cmds[j]) == Failed(m.value) &&
                                    forall i :: 0 <= i < j ==> run(cmds[i]).Done?
    decreases |cmds|
  {
    if cmds == [] then None
    else match run(cmds[0])
      case Failed(msg) => Some(msg)
      case Done =>
        var rest := FirstFailure(run, cmds[1..]);
        assert forall j :: 1 <= j < |cmds| ==> cmds[j] == cmds[1..][j - 1];
        rest
  }

  /** The failure reported is that of the first failing command: when the commands
      before index `j` complete and command `j` fails, its message is the answer. */
  lemma FirstFailureIs(run: Command -> Exec, cmds: seq<Command>, j: nat)
    requires j < |cmds| && run(cmds[j]).Failed?
    requires forall i :: 0 <= i < j ==> run(cmds[i]).Done?
    ensures FirstFailure(run, cmds) == Some(run(cmds[j]).message)
  {
  }

  /** The certificate of kind `k` recorded in `d`, if any. */
  function Issued(d: CertificateData, k: Kind): Option<CertInfo> {
    match k
    case CaCert => d.ca
    case ServerCert => d.server
    case ClientCert => d.client
  }

  /** `created` is true exactly when all three certificates exist. */
  predicate CreatedExact(d: CertificateData) {
    d.created <==> d.ca.Some? && d.server.Some? && d.client.Some?
  }

  /** A server or client certificate only exists once a CA does. */
  predicate LeavesNeedCa(d: CertificateData) {
    (d.server.Some? || d.client.Some?) ==> d.ca.Some?
  }

  /** Every step-log entry is executed and numbered 1 to 8. */
  predicate StepsExecuted(d: CertificateData) {
    forall j :: 0 <= j < |d.steps| ==> d.steps[j].executed && 1 <= d.steps[j].step <= 8
  }

  predicate CertificatesWf(d: CertificateData) {
    CreatedExact(d) && LeavesNeedCa(d) && StepsExecuted(d)
  }

  /** `certificateData` with the certificate of kind `k` set to `info` (replacing an earlier
      one of the same kind) and `entries` appended to the step log. */
  function Logged(d: CertificateData, k: Kind, info: CertInfo, entries: seq<Step>): CertificateData {
    var withCert := match k
      case CaCert => d.(ca := Some(info))
      case ServerCert => d.(server := Some(info))
      case ClientCert => d.(client := Some(info));
    withCert.(steps := withCert.steps + entries)
  }

  /** The closing test of every successful generation: `created` is raised once all three
      certificates exist, and never lowered. */
  function RaiseCreated(d: CertificateData): CertificateData {
    if d.ca.Some? && d.server.Some? && d.client.Some? then d.(created := true) else d
  }

  /** `certificateData` after a successful generation of `k`: the certificate is recorded
      (replacing an earlier one of the same kind), the entries are appended after the
      untouched earlier log, the other certificates stay, and `created` is raised once all
      three exist. A well-formed record stays well-formed when the entries are those of
      StepsFor and a leaf certificate is only added under an existing CA. */
  function Recorded(d: CertificateData, k: Kind, info: CertInfo, entries: seq<Step>): (r: CertificateData)
    ensures r.steps == d.steps + entries
    ensures Issued(r, k) == Some(info)
    ensures forall other :: other != k ==> Issued(r, other) == Issued(d, other)
    ensures CreatedExact(d) ==> CreatedExact(r)
    ensures d.created ==> r.created
    ensures LeavesNeedCa(d) && (k != CaCert ==> d.ca.Some?) ==> LeavesNeedCa(r)
    ensures StepsExecuted(d) && (forall j :: 0 <= j < |entries| ==> entries[j].executed && 1 <= entries[j].step <= 8)
            ==> StepsExecuted(r)
  {
    RaiseCreated(Logged(d, k, info, entries))
  }

  /** The error text of a failed generation. */
  function GenerationError(kind: string, message: string): string {
    "Erro ao gerar certificado " + kind + ": " + message
  }

  /** The reply of a generation request and the certificate record it leaves behind. */
  datatype Generated = Generated(reply: Reply<CertificateData>, data: CertificateData)

  /** The generation endpoint as a function of the record `d` it starts from. An unknown
      kind runs no command and still succeeds, only passing through the closing `created`
      test, so it changes nothing in a record whose `created` flag is exact; a server or client certificate without a
      CA is refused with 400; the first failing command gives a 500 carrying its message;
      otherwise the certificate and its log entries are recorded (Recorded). Whatever
      happens, a refused or failed generation leaves the record exactly as it was and a
      success replies with the new record. */
  function Generation(d: CertificateData, dir: string, kind: string, run: Command -> Exec, now: string)
    : (g: Generated)
    ensures g.reply.Failure? ==> g.data == d
    ensures g.reply.Success? ==> g.reply.value == g.data
    ensures ParseKind(kind).None? ==>
              g.reply.Success? && g.data.steps == d.steps && (forall k :: Issued(g.data, k) == Issued(d, k)) &&
              (CreatedExact(d) ==> g.data == d)
    ensures ParseKind(kind).Some? && ParseKind(kind).value != CaCert && d.ca.None? ==>
              g.reply == Failure(400, CaFirst)
    ensures ParseKind(kind).Some? && (ParseKind(kind).value == CaCert || d.ca.Some?) ==>
              match FirstFailure(run, Commands(dir, ParseKind(kind).value))
              case Some(m) => g.reply == Failure(500, GenerationError(kind, m))
              case None => g.reply.Success? &&
                           var k := ParseKind(kind).value;
                           g.data == Recorded(d, k, Issue(dir, k, now), StepsFor(dir, k))
  {
    match ParseKind(kind)
    case None =>
      var r := RaiseCreated(d);
      Generated(Success(r), r)
    case Some(k) =>
      if k != CaCert && d.ca.None? then
        Generated(Failure(400, CaFirst), d)
      else
        match FirstFailure(run, Commands(dir, k))
        case Some(m) => Generated(Failure(500, GenerationError(kind, m)), d)
        case None =>
          var r := Recorded(d, k, Issue(dir, k, now), StepsFor(dir, k));
          Generated(Success(r), r)
  }

  /** Whatever a generation request does, earlier log entries are kept unaltered, a
      certificate of any kind `k` is never dropped and `created` is never lowered. */
  lemma GenerationMonotone(d: CertificateData, dir: string, kind: string, run: Command -> Exec, now: string, k: Kind)
    ensures var g := Generation(d, dir, kind, run, now);
            d.steps <= g.data.steps &&
            (Issued(d, k).Some? ==> Issued(g.data, k).Some?) &&
            (d.created ==> g.data.created)
  {
    var g := Generation(d, dir, kind, run, now);
    if ParseKind(kind).None? {
      assert g.data.steps == d.steps && Issued(g.data, k) == Issued(d, k);
    } else if g.data != d {
      var made := ParseKind(kind).value;
      var entries := StepsFor(dir, made);
      assert g.data == Recorded(d, made, Issue(dir, made, now), entries);
      assert d.steps <= d.steps + entries == g.data.steps;
      assert Issued(g.data, k) == if k == made then Some(Issue(dir, made, now)) else Issued(d, k);
    }
  }

  /** A generation request keeps a well-formed certificate record well-formed. */
  lemma GenerationKeepsWf(d: CertificateData, dir: string, kind: string, run: Command -> Exec, now: string)
    requires CertificatesWf(d)
    ensures CertificatesWf(Generation(d, dir, kind, run, now).data)
  {
    var g := Generation(d, dir, kind, run, now);
    if ParseKind(kind).Some? && g.data != d {
      var k := ParseKind(kind).value;
      var entries := StepsFor(dir, k);
      assert g.data == Recorded(d, k, Issue(dir, k, now), entries);
      assert forall j :: 0 <= j < |entries| ==> entries[j].executed && 1 <= entries[j].step <= 8;
    }
  }

  // ---------------------------------------------------------------------------
  // Step 2: the demo HTTPS server
  // ---------------------------------------------------------------------------

  datatype ServerState = Stopped | Configured | Running

  /** The `serverConfig` record. */
  datatype ServerConfig = ServerConfig(configured: bool, port: int, status: ServerState)

  /** The `httpsServer` handle: an HTTPS server created to listen on `port`. */
  datatype Listener = Listener(port: int)

  const DefaultPort: int := 8443

  /** `port || 8443`: the requested port when it is present and not 0 (the truthy
      numbers), the default port otherwise. */
  function EffectivePort(requested: Option<int>): (p: int)
    ensures requested.Some? && requested.value != 0 ==> p == requested.value
    ensures requested.None? || requested.value == 0 ==> p == DefaultPort
    ensures p != 0
  {
    match requested
    case Some(n) => if n != 0 then n else DefaultPort
    case None => DefaultPort
  }

  /** Configured only with a server certificate; not stopped only once configured;
      running only while a listener for the configured port is held. */
  predicate ServerWf(s: ServerConfig, d: CertificateData, h: Option<Listener>) {
    (s.configured ==> d.server.Some?) &&
    (s.status != Stopped ==> s.configured) &&
    (s.status == Running ==> h == Some(Listener(s.port)))
  }

  // ---------------------------------------------------------------------------
  // Steps 3 and 4: the client and the connection test
  // ---------------------------------------------------------------------------

  datatype Handshake = Handshake(protocol: string, cipher: string, keyExchange: string,
                                 authentication: string, encryption: string, mac: string)
  datatype CertificateSummary = CertificateSummary(subject: string, issuer: string, valid: bool,
                                                   authorized: bool, expiresIn: string)
  /** Both times in milliseconds (the JSON renders them with an "ms" suffix). */
  datatype Performance = Performance(handshakeTime: int, totalTime: int)

  /** What a successful connection test reports. */
  datatype TestResult = TestResult(success: bool, timestamp: string, handshake: Handshake,
                                   certificate: CertificateSummary, performance: Performance,
                                   responseStatus: int, responseData: string)

  /** The `clientConfig` record. */
  datatype ClientConfig = ClientConfig(configured: bool, connectionTested: bool, lastTest: Option<TestResult>)

  /** The body of the probe's response: parsed as JSON (kept as its text), or not JSON. */
  datatype Body = Parsed(json: string) | Unparsable(message: string)

  /** How the outbound HTTPS GET of /api/secure-test ended. For an answer: the clock
      readings before the request and at the end of the response, what the TLS socket
      reports (None where the socket lacks getProtocol/getCipher), the status code, the
      body and the time stamp taken when it ended. */
  datatype Probe =
    | Answered(startTime: int, endTime: int, protocol: Option<string>, cipher: Option<string>,
               authorized: bool, statusCode: int, body: Body, timestamp: string)
    | ConnectionError(message: string)
    | TimedOut

  /** How the promise wrapping the probe settles. */
  datatype Settled = Resolved(result: TestResult) | Rejected(reason: string)

  /** `Math.floor(totalTime / 2)`; Dafny's division by a positive divisor already rounds down. */
  function HandshakeTime(totalTime: int): (h: int)
    ensures 2 * h <= totalTime < 2 * h + 2
  {
    totalTime / 2
  }

  /** The settlement of the probe: a parsed answer resolves with its result (elapsed
      time end - start, handshake time half of it rounded down, the socket's protocol
      and cipher or the fixed fallbacks, the answer's status and body); an unparsable
      answer, a socket error and the 5-second timeout reject with their message. */
  function ProbeOutcome(probe: Probe): (s: Settled)
    ensures s.Resolved? <==> probe.Answered? && probe.body.Parsed?
    ensures s.Resolved? ==>
              var t := s.result;
              t.success &&
              t.performance.totalTime == probe.endTime - probe.startTime &&
              2 * t.performance.handshakeTime <= t.performance.totalTime < 2 * t.performance.handshakeTime + 2 &&
              t.handshake.protocol == probe.protocol.GetOr("TLSv1.3") &&
              t.handshake.cipher == probe.cipher.GetOr("TLS_AES_256_GCM_SHA384") &&
              t.certificate.authorized == probe.authorized &&
              t.responseStatus == probe.statusCode && t.responseData == probe.body.json &&
              t.timestamp == probe.timestamp
    ensures probe.Answered? && probe.body.Unparsable? ==>
              s == Rejected("Erro ao analisar resposta: " + probe.body.message)
    ensures probe.ConnectionError? ==> s == Rejected("Erro na conexão: " + probe.message)
    ensures probe.TimedOut? ==> s == Rejected("Timeout na conexão")
  {
    match probe
    case Answered(start, end, protocol, cipher, authorized, status, body, stamp) =>
      var total := end - start;
      (match body
      case Parsed(json) =>
        Resolved(TestResult(
          true, stamp,
          Handshake(protocol.GetOr("TLSv1.3"), cipher.GetOr("TLS_AES_256_GCM_SHA384"),
                    "ECDHE", "RSA", "AES-256-GCM", "SHA384"),
          CertificateSummary("CN=localhost", "CN=TLS Demo CA", true, authorized, "89 days"),
          Performance(HandshakeTime(total), total),
          status, json))
      case Unparsable(message) => Rejected("Erro ao analisar resposta: " + message))
    case ConnectionError(message) => Rejected("Erro na conexão: " + message)
    case TimedOut => Rejected("Timeout na conexão")
  }

  /** The error text of a failed connection test. */
  function TestError(message: string): string {
    "Erro no teste de conexão: " + message
  }

  /** A test is recorded exactly together with its result, and only for a configured
      client and server. */
  predicate ClientWf(c: ClientConfig, s: ServerConfig) {
    (c.connectionTested <==> c.lastTest.Some?) &&
    (c.connectionTested ==> c.configured && s.configured)
  }

  // ---------------------------------------------------------------------------
  // Step 5: the security checklist
  // ---------------------------------------------------------------------------

  datatype ItemStatus = Pending | Completed

  datatype ChecklistItem = ChecklistItem(id: nat, category: string, item: string,
                                         status: ItemStatus, description: string)

  /** GET /api/security/checklist: a fixed list of five items numbered 1 to 5, of which
      only the key-size item (4) is completed. */
  function SecurityChecklist(): (items: seq<ChecklistItem>)
    ensures |items| == 5
    ensures forall j :: 0 <= j < |items| ==> items[j].id == j + 1
    ensures forall j :: 0 <= j < |items| ==> (items[j].status == Completed <==> items[j].id == 4)
  {
    [ChecklistItem(1, "Certificados", "Verificar datas de expiração", Pending,
                   "Certificados devem ser renovados antes da expiração"),
     ChecklistItem(2, "Protocolos", "Desabilitar protocolos antigos (SSLv3, TLSv1.0)", Pending,
                   "Use apenas TLS 1.2 ou superior"),
     ChecklistItem(3, "Ciphers", "Configurar cipher suites seguras", Pending,
                   "Evite ciphers fracas e prefira AEAD"),
     ChecklistItem(4, "Chaves", "Usar chaves de pelo menos 2048 bits", Completed,
                   "Chaves RSA menores que 2048 bits são inseguras"),
     ChecklistItem(5, "HSTS", "Implementar HTTP Strict Transport Security", Pending,
                   "Force HTTPS em todos os acessos")]
  }

  /** A file sent as a download: the path read and the name offered to the browser. */
  datatype Download = Download(path: string, filename: string)

  // ---------------------------------------------------------------------------
  // The process state and its endpoints
  // ---------------------------------------------------------------------------

  /** The Express back end: its module-level records and the HTTPS server handle. */
  class WizardApi {
    /** The directory the certificates are written to. */
    const certDir: string
    var certificateData: CertificateData
    var serverConfig: ServerConfig
    var clientConfig: ClientConfig
    var httpsServer: Option<Listener>

    /** The invariant every endpoint keeps. */
    ghost predicate Valid()
      reads this
    {
      CertificatesWf(certificateData) &&
      ServerWf(serverConfig, certificateData, httpsServer) &&
      ClientWf(clientConfig, serverConfig)
    }

    /** The state at process start. */
    constructor (dir: string)
      ensures Valid() && certDir == dir
      ensures certificateData == NoCertificates
      ensures serverConfig == ServerConfig(false, DefaultPort, Stopped)
      ensures clientConfig == ClientConfig(false, false, None)
      ensures httpsServer == None
    {
      certDir := dir;
      certificateData := NoCertificates;
      serverConfig := ServerConfig(false, DefaultPort, Stopped);
      clientConfig := ClientConfig(false, false, None);
      httpsServer := None;
    }

    /** GET /api/certificates/status: the certificate record as it stands. */
    method GetCertificateStatus() returns (d: CertificateData)
      ensures d == certificateData
    {
      d := certificateData;
    }

    /** POST /api/certificates/generate with body `{ type: kind }`, as Generation states:
        `run` gives the outcome of each OpenSSL command and `now` the clock. */
    method GenerateCertificate(kind: string, run: Command -> Exec, now: string)
      returns (resp: Reply<CertificateData>)
      requires Valid()
      modifies this`certificateData
      ensures Valid()
      ensures Generated(resp, certificateData) == Generation(old(certificateData), certDir, kind, run, now)
    {
      ghost var before := certificateData;
      resp := Dispatch(kind, run, now);
      GenerationMonotone(before, certDir, kind, run, now, ServerCert);
      GenerationKeepsWf(before, certDir, kind, run, now);
    }

    /** The body of the generation handler: the guard on the CA, the commands of the
        requested kind, and the closing `created` test. Not an endpoint: it neither needs
        nor keeps `Valid()`; GenerateCertificate wraps it and restores the invariant. */
    method Dispatch(kind: string, run: Command -> Exec, now: string)
      returns (resp: Reply<CertificateData>)
      modifies this`certificateData
      ensures Generated(resp, certificateData) == Generation(old(certificateData), certDir, kind, run, now)
    {
      var failure: Option<string> := None;
      match ParseKind(kind) {
        case None =>
        case Some(CaCert) =>
          failure := GenerateCa(run, now);
        case Some(ServerCert) =>
          if certificateData.ca.None? { resp := Failure(400, CaFirst); return; }
          failure := GenerateServer(run, now);
        case Some(ClientCert) =>
          if certificateData.ca.None? { resp := Failure(400, CaFirst); return; }
          failure := GenerateClient(run, now);
      }
      if failure.Some? {
        resp := Failure(500, GenerationError(kind, failure.value));
        return;
      }
      if certificateData.ca.Some? && certificateData.server.Some? && certificateData.client.Some? {
        certificateData := certificateData.(created := true);
      }
      resp := Success(certificateData);
    }

    /** The `'ca'` case: a 2048-bit key, then a self-signed certificate valid 365 days.
        On success the CA is recorded and steps 1 and 2 are logged; on the first failing
        command its message is returned and nothing is recorded. One `switch` case of
        Dispatch, not an endpoint: it neither needs nor keeps `Valid()`. */
    method GenerateCa(run: Command -> Exec, now: string) returns (failure: Option<string>)
      modifies this`certificateData
      ensures failure == FirstFailure(run, Commands(certDir, CaCert))
      ensures failure.Some? ==> certificateData == old(certificateData)
      ensures failure.None? ==>
                certificateData == Logged(old(certificateData), CaCert, Issue(certDir, CaCert, now), StepsFor(certDir, CaCert))
    {
      var keyCmd := GenRsa(KeyPath(certDir, CaCert), 2048);
      var r := run(keyCmd);
      if r.Failed? {
        FirstFailureIs(run, Commands(certDir, CaCert), 0);
        return Some(r.message);
      }
      var certCmd := SelfSign(KeyPath(certDir, CaCert), CertPath(certDir, CaCert), 365, Subject("TLS Demo CA"));
      r := run(certCmd);
      if r.Failed? {
        FirstFailureIs(run, Commands(certDir, CaCert), 1);
        return Some(r.message);
      }
      certificateData := certificateData.(ca := Some(CertInfo("TLS Demo CA", "365 days", "2048 bits", "RSA", now,
                                                               KeyPath(certDir, CaCert), CertPath(certDir, CaCert))));
      certificateData := certificateData.(steps := certificateData.steps +
        [Step(1, keyCmd, "Gerar chave privada da CA", true)]);
      certificateData := certificateData.(steps := certificateData.steps +
        [Step(2, certCmd, "Criar certificado auto-assinado da CA", true)]);
      failure := None;
    }

    /** The `'server'` case: a 2048-bit key, a signing request for CN=localhost, and the
        CA's signature valid 90 days. On success the server certificate is recorded and
        steps 3 to 5 are logged; on the first failing command nothing is recorded. One
        `switch` case of Dispatch, not an endpoint: it neither needs nor keeps `Valid()`
        (alone it would record a server certificate without a CA). */
    method GenerateServer(run: Command -> Exec, now: string) returns (failure: Option<string>)
      modifies this`certificateData
      ensures failure == FirstFailure(run, Commands(certDir, ServerCert))
      ensures failure.Some? ==> certificateData == old(certificateData)
      ensures failure.None? ==>
                certificateData == Logged(old(certificateData), ServerCert, Issue(certDir, ServerCert, now), StepsFor(certDir, ServerCert))
    {
      var keyCmd := GenRsa(KeyPath(certDir, ServerCert), 2048);
      var r := run(keyCmd);
      if r.Failed? {
        FirstFailureIs(run, Commands(certDir, ServerCert), 0);
        return Some(r.message);
      }
      var csrCmd := Request(KeyPath(certDir, ServerCert), CsrPath(certDir, ServerCert), Subject("localhost"));
      r := run(csrCmd);
      if r.Failed? {
        FirstFailureIs(run, Commands(certDir, ServerCert), 1);
        return Some(r.message);
      }
      var certCmd := SignWithCa(CsrPath(certDir, ServerCert), CertPath(certDir, CaCert), KeyPath(certDir, CaCert),
                                CertPath(certDir, ServerCert), 90);
      r := run(certCmd);
      if r.Failed? {
        FirstFailureIs(run, Commands(certDir, ServerCert), 2);
        return Some(r.message);
      }
      certificateData := certificateData.(server := Some(CertInfo("localhost", "90 days", "2048 bits", "RSA", now,
                                                                   KeyPath(certDir, ServerCert), CertPath(certDir, ServerCert))));
      certificateData := certificateData.(steps := certificateData.steps +
        [Step(3, keyCmd, "Gerar chave privada do servidor", true)]);
      certificateData := certificateData.(steps := certificateData.steps +
        [Step(4, csrCmd, "Criar requisição de certificado do servidor", true)]);
      certificateData := certificateData.(steps := certificateData.steps +
        [Step(5, certCmd, "Assinar certificado do servidor com a CA", true)]);
      failure := None;
    }

    /** The `'client'` case: as for the server, with CN=client; steps 6 to 8. One `switch`
        case of Dispatch, not an endpoint: it neither needs nor keeps `Valid()`. */
    method GenerateClient(run: Command -> Exec, now: string) returns (failure: Option<string>)
      modifies this`certificateData
      ensures failure == FirstFailure(run, Commands(certDir, ClientCert))
      ensures failure.Some? ==> certificateData == old(certificateData)
      ensures failure.None? ==>
                certificateData == Logged(old(certificateData), ClientCert, Issue(certDir, ClientCert, now), StepsFor(certDir, ClientCert))
    {
      var keyCmd := GenRsa(KeyPath(certDir, ClientCert), 2048);
      var r := run(keyCmd);
      if r.Failed? {
        FirstFailureIs(run, Commands(certDir, ClientCert), 0);
        return Some(r.message);
      }
      var csrCmd := Request(KeyPath(certDir, ClientCert), CsrPath(certDir, ClientCert), Subject("client"));
      r := run(csrCmd);
      if r.Failed? {
        FirstFailureIs(run, Commands(certDir, ClientCert), 1);
        return Some(r.message);
      }
      var certCmd := SignWithCa(CsrPath(certDir, ClientCert), CertPath(certDir, CaCert), KeyPath(certDir, CaCert),
                                CertPath(certDir, ClientCert), 90);
      r := run(certCmd);
      if r.Failed? {
        FirstFailureIs(run, Commands(certDir, ClientCert), 2);
        return Some(r.message);
      }
      certificateData := certificateData.(client := Some(CertInfo("client", "90 days", "2048 bits", "RSA", now,
                                                                   KeyPath(certDir, ClientCert), CertPath(certDir, ClientCert))));
      certificateData := certificateData.(steps := certificateData.steps +
        [Step(6, keyCmd, "Gerar chave privada do cliente", true)]);
      certificateData := certificateData.(steps := certificateData.steps +
        [Step(7, csrCmd, "Criar requisição de certificado do cliente", true)]);
      certificateData := certificateData.(steps := certificateData.steps +
        [Step(8, certCmd, "Assinar certificado do cliente com a CA", true)]);
      failure := None;
    }

    /** GET /api/server/status: the server record as it stands. */
    method GetServerStatus() returns (s: ServerConfig)
      ensures s == serverConfig
    {
      s := serverConfig;
    }

    /** POST /api/server/configure with body `{ port: requested }`: refused with 400 until a
        server certificate exists; otherwise the server is configured on EffectivePort. */
    method ConfigureServer(requested: Option<int>) returns (resp: Reply<ServerConfig>)
      requires Valid()
      modifies this`serverConfig
      ensures Valid()
      ensures old(certificateData).server.None? ==>
                resp == Failure(400, "Certificado do servidor deve ser gerado primeiro") &&
                serverConfig == old(serverConfig)
      ensures old(certificateData).server.Some? ==>
                serverConfig == ServerConfig(true, EffectivePort(requested), Configured) &&
                resp == Success(serverConfig)
    {
      if certificateData.server.None? {
        resp := Failure(400, "Certificado do servidor deve ser gerado primeiro");
        return;
      }
      serverConfig := serverConfig.(port := EffectivePort(requested));
      serverConfig := serverConfig.(configured := true);
      serverConfig := serverConfig.(status := Configured);
      resp := Success(serverConfig);
    }

    /** POST /api/server/start. `keyExists`/`certExists` answer `existsSync` for the server's
        key and certificate, `load` is the outcome of reading them and creating the HTTPS
        server, `listen` whether `listen` threw at once (a bad port). The guards run in the
        source's order: not configured, no server certificate, a missing file (all 400),
        then a load failure (500, nothing changed). A throwing `listen` leaves the new handle
        in place but the status as it was (500); otherwise the server is running. */
    method StartServer(keyExists: bool, certExists: bool, load: Exec, listen: Exec)
      returns (resp: Reply<ServerConfig>)
      requires Valid()
      modifies this`serverConfig, this`httpsServer
      ensures Valid()
      ensures resp.Failure? ==> serverConfig == old(serverConfig)
      ensures !old(serverConfig).configured ==>
                resp == Failure(400, "Servidor não configurado") && httpsServer == old(httpsServer)
      ensures old(serverConfig).configured ==>
                if !keyExists || !certExists then
                  resp == Failure(400, "Arquivos de certificado não encontrados") && httpsServer == old(httpsServer)
                else if load.Failed? then
                  resp == Failure(500, "Erro ao iniciar servidor HTTPS: " + load.message) && httpsServer == old(httpsServer)
                else
                  httpsServer == Some(Listener(serverConfig.port)) &&
                  if listen.Failed? then
                    resp == Failure(500, "Erro ao iniciar servidor HTTPS: " + listen.message)
                  else
                    serverConfig == old(serverConfig).(status := Running) && resp == Success(serverConfig)
    {
      if !serverConfig.configured {
        resp := Failure(400, "Servidor não configurado");
        return;
      }
      if certificateData.server.None? {
        // Valid() ties `configured` to an existing server certificate, so the
        // 400 "Certificado do servidor não encontrado" reply cannot be reached.
        assert false;
      }
      if !keyExists || !certExists {
        resp := Failure(400, "Arquivos de certificado não encontrados");
        return;
      }
      if load.Failed? {
        resp := Failure(500, "Erro ao iniciar servidor HTTPS: " + load.message);
        return;
      }
      httpsServer := Some(Listener(serverConfig.port));
      if listen.Failed? {
        resp := Failure(500, "Erro ao iniciar servidor HTTPS: " + listen.message);
        return;
      }
      serverConfig := serverConfig.(status := Running);
      resp := Success(serverConfig);
    }

    /** POST /api/server/stop: with a handle, the server is closed, the status becomes
        stopped and the handle is dropped; without one nothing changes. It always succeeds. */
    method StopServer() returns (resp: Reply<ServerConfig>)
      requires Valid()
      modifies this`serverConfig, this`httpsServer
      ensures Valid()
      ensures old(httpsServer).Some? ==>
                serverConfig == old(serverConfig).(status := Stopped) && httpsServer == None
      ensures old(httpsServer).None? ==>
                serverConfig == old(serverConfig) && httpsServer == None
      ensures resp == Success(serverConfig)
    {
      if httpsServer.Some? {
        serverConfig := serverConfig.(status := Stopped);
        httpsServer := None;
      }
      resp := Success(serverConfig);
    }

    /** GET /api/client/status: the client record as it stands. */
    method GetClientStatus() returns (c: ClientConfig)
      ensures c == clientConfig
    {
      c := clientConfig;
    }

    /** POST /api/client/configure: marks the client configured, unconditionally; a second
        call changes nothing more (the new record does not depend on the old flag). */
    method ConfigureClient() returns (resp: Reply<ClientConfig>)
      requires Valid()
      modifies this`clientConfig
      ensures Valid()
      ensures clientConfig == old(clientConfig).(configured := true)
      ensures resp == Success(clientConfig)
    {
      clientConfig := clientConfig.(configured := true);
      resp := Success(clientConfig);
    }

    /** POST /api/connection/test. `caRead` is the outcome of reading the CA certificate
        for the client agent (attempted only when a CA exists) and `probe` how the HTTPS
        request to the demo server ended. Refused with 400 unless both sides are configured,
        and then unless the server is running. A failed read or a rejected probe answers
        500 and leaves the client record as it was; a resolved probe is recorded as the
        last test. Only the client record can change (its frame). */
    method TestConnection(caRead: Exec, probe: Probe) returns (resp: Reply<TestResult>)
      requires Valid()
      modifies this`clientConfig
      ensures Valid()
      ensures resp.Failure? ==> clientConfig == old(clientConfig)
      ensures resp.Success? ==>
                clientConfig == old(clientConfig).(connectionTested := true, lastTest := Some(resp.value))
      ensures !old(serverConfig).configured || !old(clientConfig).configured ==>
                resp == Failure(400, "Servidor e cliente devem estar configurados primeiro")
      ensures old(serverConfig).configured && old(clientConfig).configured && old(serverConfig).status != Running ==>
                resp == Failure(400, "Servidor HTTPS deve estar rodando para testar a conexão")
      ensures old(serverConfig).configured && old(clientConfig).configured && old(serverConfig).status == Running ==>
                if old(certificateData).ca.Some? && caRead.Failed? then
                  resp == Failure(500, TestError(caRead.message))
                else match ProbeOutcome(probe)
                  case Resolved(t) => resp == Success(t)
                  case Rejected(why) => resp == Failure(500, TestError(why))
    {
      if !serverConfig.configured || !clientConfig.configured {
        resp := Failure(400, "Servidor e cliente devem estar configurados primeiro");
        return;
      }
      if serverConfig.status != Running {
        resp := Failure(400, "Servidor HTTPS deve estar rodando para testar a conexão");
        return;
      }
      if certificateData.ca.Some? && caRead.Failed? {
        resp := Failure(500, TestError(caRead.message));
        return;
      }
      match ProbeOutcome(probe)
      case Rejected(why) =>
        resp := Failure(500, TestError(why));
      case Resolved(testResult) =>
        clientConfig := clientConfig.(connectionTested := true);
        clientConfig := clientConfig.(lastTest := Some(testResult));
        resp := Success(testResult);
    }

    /** POST /api/security/checklist/:id with body `{ status }`: acknowledges with a
        message naming the item and the status; no state is read or changed. */
    method MarkChecklistItem(id: string, status: string) returns (message: string)
      ensures message == "Item " + id + " marcado como " + status
      ensures unchanged(this)
    {
      message := "Item " + id + " marcado como " + status;
    }

    /** GET /api/certificates/download/ca. `caFileExists` answers `existsSync` for the CA
        certificate and `sent` is the outcome of the download. 404 unless a CA exists and
        its file is there; 500 when sending fails; otherwise the CA certificate file is
        offered as ca-cert.pem. Nothing changes. */
    method DownloadCa(caFileExists: bool, sent: Exec) returns (resp: Reply<Download>)
      ensures certificateData.ca.None? || !caFileExists ==>
                resp == Failure(404, "Certificado CA não encontrado")
      ensures certificateData.ca.Some? && caFileExists ==>
                if sent.Failed? then resp == Failure(500, "Erro ao baixar certificado")
                else resp == Success(Download(certificateData.ca.value.certPath, "ca-cert.pem"))
    {
      if certificateData.ca.None? || !caFileExists {
        resp := Failure(404, "Certificado CA não encontrado");
        return;
      }
      if sent.Failed? {
        resp := Failure(500, "Erro ao baixar certificado");
        return;
      }
      resp := Success(Download(certificateData.ca.value.certPath, "ca-cert.pem"));
    }
  }

  /** The numbers of the entries of a step log, in order. */
  function StepNumbers(steps: seq<Step>): seq<nat> {
    seq(|steps|, j requires 0 <= j < |steps| => steps[j].step)
  }

  /** Generating the CA, the server and the client certificate once each, in that order,
      leaves a log numbered 1 to 8 in order, whatever the certificate directory. */
  lemma FullLogNumbered(dir: string)
    ensures StepNumbers(StepsFor(dir, CaCert) + StepsFor(dir, ServerCert) + StepsFor(dir, ClientCert))
            == [1, 2, 3, 4, 5, 6, 7, 8]
  {
  }

  /** The certificate record at process start. */
  const NoCertificates := CertificateData(false, None, None, None, [])

  /** When every OpenSSL command succeeds and the CA guard passes, a generation of a
      known kind succeeds and records that kind's certificate and steps. */
  lemma GenerationSucceeds(d: CertificateData, dir: string, kind: string, k: Kind, run: Command -> Exec, now: string)
    requires ParseKind(kind) == Some(k) && (k == CaCert || d.ca.Some?)
    requires forall c :: run(c).Done?
    ensures var r := Recorded(d, k, Issue(dir, k, now), StepsFor(dir, k));
            Generation(d, dir, kind, run, now) == Generated(Success(r), r)
  {
    assert FirstFailure(run, Commands(dir, k)) == None;
  }

  /** From the record at process start, when every OpenSSL command succeeds, generating
      the CA, then the server, then the client certificate succeeds each time and ends
      with `created` raised and the log of the three kinds' steps, in order. */
  lemma CertificateChain(dir: string, run: Command -> Exec, now: string)
    requires forall c :: run(c).Done?
    ensures var g1 := Generation(NoCertificates, dir, "ca", run, now);
            var g2 := Generation(g1.data, dir, "server", run, now);
            var g3 := Generation(g2.data, dir, "client", run, now);
            g1.reply.Success? && g2.reply.Success? && g3.reply.Success? && g3.data.created &&
            g3.data.steps == StepsFor(dir, CaCert) + StepsFor(dir, ServerCert) + StepsFor(dir, ClientCert)
  {
    assert ParseKind("ca") == Some(CaCert);
    assert ParseKind("server") == Some(ServerCert);
    assert ParseKind("client") == Some(ClientCert);
    var d1 := Recorded(NoCertificates, CaCert, Issue(dir, CaCert, now), StepsFor(dir, CaCert));
    var g1 := Generation(NoCertificates, dir, "ca", run, now);
    GenerationSucceeds(NoCertificates, dir, "ca", CaCert, run, now);
    assert g1 == Generated(Success(d1), d1);
    assert d1.ca.Some? && CreatedExact(d1) by {
      assert Issued(d1, CaCert).Some?;
    }
    var d2 := Recorded(d1, ServerCert, Issue(dir, ServerCert, now), StepsFor(dir, ServerCert));
    var g2 := Generation(d1, dir, "server", run, now);
    GenerationSucceeds(d1, dir, "server", ServerCert, run, now);
    assert g2 == Generated(Success(d2), d2);
    assert d2.ca.Some? && d2.server.Some? && CreatedExact(d2) by {
      assert Issued(d2, CaCert) == Issued(d1, CaCert);
      assert Issued(d2, ServerCert).Some?;
    }
    var d3 := Recorded(d2, ClientCert, Issue(dir, ClientCert, now), StepsFor(dir, ClientCert));
    var g3 := Generation(d2, dir, "client", run, now);
    GenerationSucceeds(d2, dir, "client", ClientCert, run, now);
    assert g3 == Generated(Success(d3), d3);
    assert d3.created by {
      assert Issued(d3, CaCert) == Issued(d2, CaCert);
      assert Issued(d3, ServerCert) == Issued(d2, ServerCert);
      assert Issued(d3, ClientCert).Some?;
    }
    assert d3.steps == StepsFor(dir, CaCert) + StepsFor(dir, ServerCert) + StepsFor(dir, ClientCert) by {
      assert d1.steps == StepsFor(dir, CaCert);
    }
  }

  /** The first half of the walkthrough: on a freshly started process whose OpenSSL
      commands all succeed, the CA, server and client generations leave every
      certificate created and the log of StepsFor the three kinds, in order. */
  method IssueAll(dir: string, now: string) returns (api: WizardApi)
    ensures fresh(api) && api.Valid() && api.certDir == dir
    ensures api.certificateData.created
    ensures api.certificateData.steps == StepsFor(dir, CaCert) + StepsFor(dir, ServerCert) + StepsFor(dir, ClientCert)
    ensures api.serverConfig == ServerConfig(false, DefaultPort, Stopped)
    ensures api.clientConfig == ClientConfig(false, false, None) && api.httpsServer == None
  {
    api := new WizardApi(dir);
    var succeed := (c: Command) => Done;
    CertificateChain(dir, succeed, now);
    var r1 := api.GenerateCertificate("ca", succeed, now);
    var r2 := api.GenerateCertificate("server", succeed, now);
    var r3 := api.GenerateCertificate("client", succeed, now);
  }

  /** The prerequisite chain can be completed: on a freshly started process, when every
      external effect succeeds, generating the CA, server and client certificates,
      configuring and starting the server, configuring the client and running the test
      ends with all certificates created, the server running and the connection tested,
      with the step log numbered 1 to 8 in order. */
  method Walkthrough(dir: string, now: string, probe: Probe)
    returns (created: bool, running: bool, tested: bool, numbers: seq<nat>)
    requires probe.Answered? && probe.body.Parsed?
    ensures created && running && tested
    ensures numbers == [1, 2, 3, 4, 5, 6, 7, 8]
  {
    var api := IssueAll(dir, now);
    ghost var steps := api.certificateData.steps;
    var r4 := api.ConfigureServer(None);
    assert api.serverConfig.configured;
    var r5 := api.StartServer(true, true, Done, Done);
    assert api.serverConfig.status == Running;
    var r6 := api.ConfigureClient();
    assert api.clientConfig.configured && api.serverConfig.status == Running;
    var r7 := api.TestConnection(Done, probe);
    assert api.certificateData.created && api.certificateData.steps == steps;
    created := api.certificateData.created;
    running := api.serverConfig.status == Running;
    tested := api.clientConfig.connectionTested;
    numbers := StepNumbers(api.certificateData.steps);
    FullLogNumbered(dir);
  }
}
