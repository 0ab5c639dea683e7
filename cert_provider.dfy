/** `GhaOpenSslCertProvider`: the subject of the temporary certificate, with `/` and `+` escaped
    in its values; and `generateCertificate()`, which has `openssl` write a key and a certificate
    into the runner's temporary directory, reads both back and removes them. */
module CertProvider {
  import opened Wrappers
  import opened ActionsCore

  predicate IsDnSpecial(ch: char) { ch == '/' || ch == '+' }

  /** `escapeDNComponentValue(value)`: a backslash before every '/' and '+'. */
  function EscapeDn(value: string): (r: string)
  {
    if value == [] then []
    else (if IsDnSpecial(value[0]) then ['\\', value[0]] else [value[0]]) + EscapeDn(value[1..])
  }

  /** The number of '/' and '+' in a string. */
  function SpecialCount(value: string): (n: nat)
    ensures n <= |value|
  {
    if value == [] then 0 else (if IsDnSpecial(value[0]) then 1 else 0) + SpecialCount(value[1..])
  }

  /** Deletes, scanning left to right, each backslash that precedes a '/' or a '+'. */
  function UnescapeDn(s: string): string
  {
    if |s| >= 2 && s[0] == '\\' && IsDnSpecial(s[1]) then [s[1]] + UnescapeDn(s[2..])
    else if s == [] then []
    else [s[0]] + UnescapeDn(s[1..])
  }

  /** Escaping adds one character per '/' or '+'. */
  lemma {:induction false} EscapeDnLength(value: string)
    ensures |EscapeDn(value)| == |value| + SpecialCount(value)
  {
    if value != [] {
      EscapeDnLength(value[1..]);
    }
  }

  /** An escaped value never begins with '/' or '+'. */
  lemma {:induction false} EscapeDnHead(value: string)
    requires EscapeDn(value) != []
    ensures !IsDnSpecial(EscapeDn(value)[0])
  {
  }

  /** An escaped value has no '/' or '+' that is not preceded by a backslash. */
  lemma {:induction false} EscapeDnEscapes(value: string)
    ensures forall i :: 0 <= i < |EscapeDn(value)| && IsDnSpecial(EscapeDn(value)[i]) ==> i > 0 && EscapeDn(value)[i - 1] == '\\'
  {
    if value != [] {
      EscapeDnEscapes(value[1..]);
      var head := if IsDnSpecial(value[0]) then ['\\', value[0]] else [value[0]];
      var tail := EscapeDn(value[1..]);
      assert EscapeDn(value) == head + tail;
      forall i | 0 <= i < |head + tail| && IsDnSpecial((head + tail)[i]) ensures i > 0 && (head + tail)[i - 1] == '\\' {
        if i > |head| {
          assert (head + tail)[i] == tail[i - |head|];
          assert (head + tail)[i - 1] == tail[i - 1 - |head|];
        }
      }
    }
  }

  /** Removing the escapes recovers the value. */
  lemma {:induction false} EscapeDnRoundTrip(value: string)
    ensures UnescapeDn(EscapeDn(value)) == value
  {
    if value != [] {
      var tail := EscapeDn(value[1..]);
      EscapeDnRoundTrip(value[1..]);
      if IsDnSpecial(value[0]) {
        assert EscapeDn(value) == ['\\', value[0]] + tail;
        assert (['\\', value[0]] + tail)[2..] == tail;
      } else {
        assert EscapeDn(value) == [value[0]] + tail;
        if tail != [] {
          EscapeDnHead(value[1..]);
        }
        assert ([value[0]] + tail)[1..] == tail;
      }
      assert [value[0]] + value[1..] == value;
    }
  }

  /** The workflow run's identity as the process environment gives it; an unset variable is
      `None`. */
  datatype RunEnvironment = RunEnvironment(
    runnerTemp: Option<string>,
    runId: Option<string>,
    repositoryOwner: Option<string>,
    repository: Option<string>)

  const SubjectPrefix := "/CN=GitHub Actions Workflow Run "

  /** `ghaCertSubject`: the run id (`undefined` when unset), then the escaped owner and
      repository, each "" when unset. */
  function CertSubject(env: RunEnvironment): (subject: string)
  {
    SubjectPrefix + OptText(env.runId) + "/O=" + EscapeDn(env.repositoryOwner.GetOr(""))
      + "/OU=" + EscapeDn(env.repository.GetOr(""))
  }

  /** The subject carries the run id and the owner and repository exactly, once unescaped. */
  lemma CertSubjectParts(env: RunEnvironment)
    ensures var owner := EscapeDn(env.repositoryOwner.GetOr(""));
            var repo := EscapeDn(env.repository.GetOr(""));
            && CertSubject(env) == SubjectPrefix + OptText(env.runId) + "/O=" + owner + "/OU=" + repo
            && UnescapeDn(owner) == env.repositoryOwner.GetOr("")
            && UnescapeDn(repo) == env.repository.GetOr("")
  {
    EscapeDnRoundTrip(env.repositoryOwner.GetOr(""));
    EscapeDnRoundTrip(env.repository.GetOr(""));
  }

  /** What `new crypto.X509Certificate(pem)` exposes. */
  datatype X509Info = X509Info(rawBase64: string, validFrom: string, validTo: string, subject: string, fingerprint256: string)

  /** The generated key pair. The object `generateCertificate()` returns has no `x509` property;
      `x509` is `None` there. */
  datatype KeyPair = KeyPair(
    uuid: string,
    privateKey: string,
    certificate: string,
    commonName: string,
    thumbprint: string,
    x509: Option<X509Info>)

  /** The object literal `generateCertificate()` returns, as written. */
  function KeyPairAsWritten(uuid: string, privateKey: string, certificate: string, x509: X509Info): (kp: KeyPair)
    ensures kp.x509.None?
  {
    KeyPair(uuid, privateKey, certificate, x509.subject, x509.fingerprint256, None)
  }

  /** The key pair with the parsed certificate included, which `addCertificateKeyCredential`
      reads. */
  function KeyPairOf(uuid: string, privateKey: string, certificate: string, x509: X509Info): (kp: KeyPair)
    ensures kp.x509 == Some(x509)
    ensures kp == KeyPairAsWritten(uuid, privateKey, certificate, x509).(x509 := Some(x509))
  {
    KeyPair(uuid, privateKey, certificate, x509.subject, x509.fingerprint256, Some(x509))
  }

  /** The files of the runner. */
  class FileStore {
    var files: map<string, string>

    constructor (files: map<string, string>)
      ensures this.files == files
    {
      this.files := files;
    }

    /** `fs.readFile(path, 'ascii')`: fails when there is no such file. */
    method Read(path: string) returns (r: Result<string>)
      ensures path in files ==> r == Ok(files[path])
      ensures path !in files ==> r == Err(PlainError(NoSuchFile + path))
    {
      if path in files {
        r := Ok(files[path]);
      } else {
        r := Err(PlainError(NoSuchFile + path));
      }
    }

    /** `fs.rm(path, { force: true })`: never fails. */
    method Remove(path: string)
      modifies this
      ensures files == Without(old(files), path)
    {
      files := Without(files, path);
    }

    /** What `openssl` leaves behind when it succeeds: the key and the certificate files. */
    method Write(path: string, contents: string)
      modifies this
      ensures files == old(files)[path := contents]
    {
      files := files[path := contents];
    }
  }

  /** A file map less one path. */
  function Without(files: map<string, string>, path: string): (r: map<string, string>)
    ensures path !in r && forall p :: p in files && p != path ==> p in r && r[p] == files[p]
    ensures forall p :: p in r ==> p in files
  {
    map p | p in files && p != path :: files[p]
  }

  const NoSuchFile := "ENOENT: no such file or directory, open "
  const Openssl := "openssl"

  /** The `openssl req` arguments: a self-signed RSA-2048 certificate, unencrypted key, valid for
      30 days, with the given subject and output files. */
  function OpensslArgs(subject: string, cerPath: string, keyPath: string): (args: seq<string>)
    ensures |args| == 13 && args[6] == subject && args[10] == cerPath && args[12] == keyPath
  {
    ["req", "-x509", "-noenc", "-newkey", "rsa:2048", "-subj", subject, "-days", "30", "-out", cerPath, "-keyout", keyPath]
  }

  /** The temporary directory: `RUNNER_TEMP`, or the system's when unset. */
  function TempDir(env: RunEnvironment, systemTemp: string): string
  {
    env.runnerTemp.GetOr(systemTemp)
  }

  /** The key file and the certificate file for a uuid: `<tempDir>/<uuid>.key` and
      `<tempDir>/<uuid>.cer` under the given `path.join`. */
  function KeyPath(join: (string, string) -> string, dir: string, uuid: string): string
  {
    join(dir, uuid + ".key")
  }

  function CerPath(join: (string, string) -> string, dir: string, uuid: string): string
  {
    join(dir, uuid + ".cer")
  }

  /** The outside inputs of `generateCertificate()`: the fresh uuid, the directory, what openssl
      writes when it succeeds (the key and certificate PEM texts) and how the certificate
      parses. */
  datatype CertificateSources = CertificateSources(
    uuid: string,
    systemTemp: string,
    join: (string, string) -> string,
    minted: (string, string),
    parse: string -> Result<X509Info>)

  /** Reads the key file and removes it, then the same for the certificate file. */
  method ReadAndRemove(store: FileStore, keyPath: string, cerPath: string) returns (r: Result<(string, string)>)
    modifies store
    ensures keyPath !in old(store.files) ==> r == Err(PlainError(NoSuchFile + keyPath)) && store.files == old(store.files)
    ensures keyPath in old(store.files) && keyPath != cerPath && cerPath in old(store.files) ==>
              r == Ok((old(store.files)[keyPath], old(store.files)[cerPath]))
              && store.files == Without(Without(old(store.files), keyPath), cerPath)
    ensures keyPath in old(store.files) && keyPath == cerPath ==> r == Err(PlainError(NoSuchFile + cerPath))
    ensures r.Ok? ==> keyPath !in store.files && cerPath !in store.files
  {
    var keyPem := store.Read(keyPath);
    if keyPem.Err? {
      return Err(keyPem.error);
    }
    store.Remove(keyPath);
    var cerPem := store.Read(cerPath);
    if cerPem.Err? {
      return Err(cerPem.error);
    }
    store.Remove(cerPath);
    r := Ok((keyPem.value, cerPem.value));
  }

  /** What `generateCertificate()` settles with: a failing `openssl` is an `ExecError`; when the
      two paths coincide, the second read finds no file; otherwise the parsed certificate with
      the generated key. */
  function CertOutcome(ext: Externals, env: RunEnvironment, src: CertificateSources): Result<KeyPair>
  {
    var dir := TempDir(env, src.systemTemp);
    var keyPath := KeyPath(src.join, dir, src.uuid);
    var cerPath := CerPath(src.join, dir, src.uuid);
    if ext.processes(Openssl, OpensslArgs(CertSubject(env), cerPath, keyPath), None).exitCode != 0 then Err(ExecError(Openssl))
    else if keyPath == cerPath then Err(PlainError(NoSuchFile + cerPath))
    else match src.parse(src.minted.1)
      case Err(e) => Err(e)
      case Ok(x509) => Ok(KeyPairOf(src.uuid, src.minted.0, src.minted.1, x509))
  }

  /** `generateCertificate()`, returning the parsed certificate with the key pair (the object
      literal of the source omits it: `KeyPairAsWritten`). The files it reads are removed right
      after reading, so on success neither temporary path is left in the store and every other
      file is as it was; the uuid of the file names is the one returned; the thumbprint and
      common name come from the parsed certificate. */
  method GenerateCertificate(host: Host, ext: Externals, store: FileStore, env: RunEnvironment, src: CertificateSources)
    returns (r: Result<KeyPair>)
    modifies host, store
    ensures var dir := TempDir(env, src.systemTemp);
            host.trace == old(host.trace) + [Exec(Openssl, OpensslArgs(CertSubject(env), CerPath(src.join, dir, src.uuid), KeyPath(src.join, dir, src.uuid)), None)]
    ensures host.state == old(host.state)
    ensures r == CertOutcome(ext, env, src)
    ensures var dir := TempDir(env, src.systemTemp);
            var keyPath := KeyPath(src.join, dir, src.uuid);
            var cerPath := CerPath(src.join, dir, src.uuid);
            var code := ext.processes(Openssl, OpensslArgs(CertSubject(env), cerPath, keyPath), None).exitCode;
            && (code != 0 ==> r == Err(ExecError(Openssl)) && store.files == old(store.files))
            && (code == 0 && keyPath != cerPath ==>
                  && store.files == Without(Without(old(store.files), cerPath), keyPath)
                  && (src.parse(src.minted.1).Err? ==> r == Err(src.parse(src.minted.1).error))
                  && (src.parse(src.minted.1).Ok? ==> r == Ok(KeyPairOf(src.uuid, src.minted.0, src.minted.1, src.parse(src.minted.1).value))))
            && (r.Ok? ==> r.value.uuid == src.uuid && r.value.x509.Some?
                          && r.value.thumbprint == r.value.x509.value.fingerprint256
                          && r.value.commonName == r.value.x509.value.subject)
  {
    var dir := TempDir(env, src.systemTemp);
    var keyPath := KeyPath(src.join, dir, src.uuid);
    var cerPath := CerPath(src.join, dir, src.uuid);
    var exec := host.RunCommand(ext, Openssl, OpensslArgs(CertSubject(env), cerPath, keyPath), None, false);
    if exec.Err? {
      return Err(exec.error);
    }
    store.Write(cerPath, src.minted.1);
    store.Write(keyPath, src.minted.0);
    ghost var written := store.files;
    var pems := ReadAndRemove(store, keyPath, cerPath);
    if pems.Err? {
      return Err(pems.error);
    }
    assert keyPath != cerPath ==> store.files == Without(Without(old(store.files), cerPath), keyPath) by {
      if keyPath != cerPath {
        WithoutWritten(old(store.files), cerPath, keyPath, src.minted.1, src.minted.0);
      }
    }
    var x509 := src.parse(pems.value.1);
    if x509.Err? {
      return Err(x509.error);
    }
    r := Ok(KeyPairOf(src.uuid, pems.value.0, pems.value.1, x509.value));
  }

  /** Writing two files and removing both leaves the store without those paths. */
  lemma WithoutWritten(files: map<string, string>, a: string, b: string, x: string, y: string)
    requires a != b
    ensures Without(Without(files[a := x][b := y], b), a) == Without(Without(files, a), b)
    ensures Without(Without(files, a), b) == Without(Without(files, b), a)
  {
  }
}
