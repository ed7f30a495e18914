/**
 * The program's driver: the per-stage fan-out/fan-in blocks (download,
 * encrypt, upload, cleanup), their success/failure accounting, and the
 * flag-driven order of the stages.
 *
 * Each stage launches one goroutine per document; each goroutine sends
 * exactly one value on a buffered channel, 1 when its `err` is nil at exit and
 * 0 otherwise; a single aggregator goroutine folds what arrives into a
 * processStatus. Here the launches are a loop computing each item's outcome,
 * the channel is an arbitrary permutation of the sent values, and the
 * aggregator is a loop over that permutation.
 */
module Pipeline {
  import opened Wrappers
  import opened Http
  import Files
  import Svcloud
  import Box

  type Document = Svcloud.Document

  /** Counters printed after each stage. */
  datatype ProcessStatus = ProcessStatus(success: int, fails: int)

  /** The configured values the stages read (config loading is not modelled). */
  datatype Config = Config(
    svCloudUsername: string,
    svCloudPassword: string,
    boxToken: string,
    boxTargetID: string,
    svCloudBaseURL: string,
    svCloudEndpoint: string,
    repo: string,
    pubKey: string)

  /** The outside world: network, file system, the encryption engine
      (target path, plaintext path, public-key path) and the HTML parser. */
  datatype Env = Env(
    transport: Transport,
    fs: Files.FileSystem,
    encrypt: (string, string, string) -> Option<string>,
    parse: seq<byte> -> Result<seq<Svcloud.Match>, string>)

  /** Where a document is downloaded to. */
  function DownloadPath(repo: string, d: Document): (r: string)
    ensures |r| == |repo| + 1 + |d.name|
    ensures r[..|repo|] == repo && r[|repo|] == '/' && r[|repo| + 1..] == d.name
  {
    repo + "/" + d.name
  }

  /** The ciphertext of a document: written by encrypt, read by upload,
      removed by cleanup. */
  function CipherPath(d: Document): (r: string)
    ensures |r| == |d.name| + 9
    ensures r[..5] == "/tmp/" && r[|r| - 4..] == ".gpg" && r[5..|r| - 4] == d.name
  {
    "/tmp/" + d.name + ".gpg"
  }

  // ---------------------------------------------------------------------
  // Accounting

  /** The value an item's goroutine sends. */
  function Bit(ok: bool): int {
    if ok then 1 else 0
  }

  /** The values sent by the items, in item order. */
  function Sent(oks: seq<bool>): (s: seq<int>)
    ensures |s| == |oks|
    ensures forall i :: 0 <= i < |oks| ==> s[i] == Bit(oks[i])
  {
    seq(|oks|, i requires 0 <= i < |oks| => Bit(oks[i]))
  }

  function Sum(s: seq<int>): int {
    if s == [] then 0 else Sum(s[..|s| - 1]) + s[|s| - 1]
  }

  /** How many items succeeded. */
  function CountOk(oks: seq<bool>): (c: nat)
    ensures c <= |oks|
  {
    if oks == [] then 0 else CountOk(oks[..|oks| - 1]) + Bit(oks[|oks| - 1])
  }

  /** The final counters of a stage whose items had outcomes `oks`. */
  function Tally(oks: seq<bool>): (ps: ProcessStatus)
    ensures ps.success + ps.fails == |oks|
    ensures 0 <= ps.success <= |oks| && 0 <= ps.fails <= |oks|
  {
    ProcessStatus(CountOk(oks), |oks| - CountOk(oks))
  }

  /** A sum of 0/1 values is the number of ones among them. */
  lemma {:induction false} SumCountsOnes(s: seq<int>)
    requires forall k :: 0 <= k < |s| ==> s[k] == 0 || s[k] == 1
    ensures Sum(s) == multiset(s)[1]
  {
    if s != [] {
      var init := s[..|s| - 1];
      assert s == init + [s[|s| - 1]];
      SumCountsOnes(init);
    }
  }

  /** The ones sent are the successful items. */
  lemma {:induction false} SentOnesAreSuccesses(oks: seq<bool>)
    ensures multiset(Sent(oks))[1] == CountOk(oks)
  {
    if oks != [] {
      var init := oks[..|oks| - 1];
      assert Sent(oks) == Sent(init) + [Bit(oks[|oks| - 1])];
      SentOnesAreSuccesses(init);
    }
  }

  /** The aggregator goroutine: it adds each arriving value to success and
      sets fails to the item count minus success. It handles exactly `n`
      messages, one per item, before the stage's Wait returns. */
  method Aggregate(n: nat, arrivals: seq<int>) returns (ps: ProcessStatus)
    requires |arrivals| == n
    requires forall k :: 0 <= k < |arrivals| ==> arrivals[k] == 0 || arrivals[k] == 1
    ensures ps.success == multiset(arrivals)[1]
    ensures ps.fails == n - ps.success
    ensures 0 <= ps.success <= n
  {
    ps := ProcessStatus(0, 0);
    var i := 0;
    while i < |arrivals|
      invariant 0 <= i <= |arrivals|
      invariant ps.success == Sum(arrivals[..i])
      invariant i == 0 ==> ps.fails == 0
      invariant i > 0 ==> ps.fails == n - ps.success
    {
      ps := ps.(success := ps.success + arrivals[i]);
      ps := ps.(fails := n - ps.success);
      assert arrivals[..i + 1][..i] == arrivals[..i];
      i := i + 1;
    }
    assert arrivals[..i] == arrivals;
    SumCountsOnes(arrivals);
    assert multiset(arrivals)[1] <= |multiset(arrivals)|;
  }

  /** Fan-in: the channel delivers the sent values in some order; whatever
      the order, the stage ends with the tally of the item outcomes. */
  method FanIn(oks: seq<bool>) returns (ps: ProcessStatus)
    ensures ps == Tally(oks)
  {
    var sent := Sent(oks);
    var arrivals: seq<int> :| multiset(arrivals) == multiset(sent);
    assert |arrivals| == |multiset(arrivals)| == |sent|;
    forall k | 0 <= k < |arrivals|
      ensures arrivals[k] == 0 || arrivals[k] == 1
    {
      assert arrivals[k] in multiset(sent);
    }
    ps := Aggregate(|oks|, arrivals);
    SentOnesAreSuccesses(oks);
  }

  // ---------------------------------------------------------------------
  // Per-item outcome rules of the four stages

  /** downloadDocuments' item: DownloadDocument into repo/Name returns nil. */
  function DownloadOk(sv: Svcloud.Client, repo: string, env: Env, d: Document): (ok: bool)
    reads sv
    requires sv.authCookie.Some?
    ensures var reply := env.transport(sv.DownloadRequest(d));
      ok <==> reply.Received? && reply.response.statusCode == 200 && env.fs.create(DownloadPath(repo, d)).None?
  {
    sv.DownloadDocument(d, DownloadPath(repo, d), env.transport, env.fs).None?
  }

  /** encryptDocuments' item: opening repo/Name and encrypting it into the
      ciphertext path both succeed. */
  function EncryptOk(cfg: Config, env: Env, d: Document): (ok: bool)
    ensures env.fs.open(DownloadPath(cfg.repo, d)).Some? ==> !ok
    ensures env.fs.open(DownloadPath(cfg.repo, d)).None? ==>
              (ok <==> env.encrypt(CipherPath(d), DownloadPath(cfg.repo, d), cfg.pubKey).None?)
  {
    && env.fs.open(DownloadPath(cfg.repo, d)).None?
    && env.encrypt(CipherPath(d), DownloadPath(cfg.repo, d), cfg.pubKey).None?
  }

  /** uploadDocuments' item: opening the ciphertext and uploading it succeed. */
  function UploadOk(cfg: Config, env: Env, d: Document): (ok: bool)
    ensures var p := CipherPath(d);
      ok <==>
        && env.fs.open(p).None? && env.fs.stat(p).None? && env.fs.read(p).Success?
        && var reply := env.transport(Box.New(cfg.boxToken).UploadRequest(p, cfg.boxTargetID, env.fs.read(p).value));
           reply.Received? && (reply.response.statusCode == 201 || reply.response.statusCode == 409)
  {
    && env.fs.open(CipherPath(d)).None?
    && Box.New(cfg.boxToken).Upload(CipherPath(d), cfg.boxTargetID, env.transport, env.fs).None?
  }

  /** removeTmpAssets' item: removing the ciphertext succeeds. */
  function RemoveOk(env: Env, d: Document): (ok: bool)
    ensures ok <==> env.fs.remove("/tmp/" + d.name + ".gpg").None?
  {
    env.fs.remove(CipherPath(d)).None?
  }

  function DownloadOks(ds: seq<Document>, sv: Svcloud.Client, repo: string, env: Env): (oks: seq<bool>)
    reads sv
    requires sv.authCookie.Some?
    ensures |oks| == |ds| && forall i :: 0 <= i < |ds| ==> oks[i] == DownloadOk(sv, repo, env, ds[i])
  {
    seq(|ds|, i reads sv requires 0 <= i < |ds| && sv.authCookie.Some? => DownloadOk(sv, repo, env, ds[i]))
  }

  function EncryptOks(ds: seq<Document>, cfg: Config, env: Env): (oks: seq<bool>)
    ensures |oks| == |ds| && forall i :: 0 <= i < |ds| ==> oks[i] == EncryptOk(cfg, env, ds[i])
  {
    seq(|ds|, i requires 0 <= i < |ds| => EncryptOk(cfg, env, ds[i]))
  }

  function UploadOks(ds: seq<Document>, cfg: Config, env: Env): (oks: seq<bool>)
    ensures |oks| == |ds| && forall i :: 0 <= i < |ds| ==> oks[i] == UploadOk(cfg, env, ds[i])
  {
    seq(|ds|, i requires 0 <= i < |ds| => UploadOk(cfg, env, ds[i]))
  }

  function RemoveOks(ds: seq<Document>, env: Env): (oks: seq<bool>)
    ensures |oks| == |ds| && forall i :: 0 <= i < |ds| ==> oks[i] == RemoveOk(env, ds[i])
  {
    seq(|ds|, i requires 0 <= i < |ds| => RemoveOk(env, ds[i]))
  }

  // ---------------------------------------------------------------------
  // The four stages

  method DownloadDocuments(documents: seq<Document>, sv: Svcloud.Client, cfg: Config, env: Env)
    returns (ps: ProcessStatus)
    requires sv.authCookie.Some?
    ensures ps == Tally(DownloadOks(documents, sv, cfg.repo, env))
  {
    var oks: seq<bool> := [];
    for i := 0 to |documents|
      invariant |oks| == i
      invariant forall k :: 0 <= k < i ==> oks[k] == DownloadOk(sv, cfg.repo, env, documents[k])
    {
      var doc := documents[i];
      var filePath := DownloadPath(cfg.repo, doc);
      var err := sv.DownloadDocument(doc, filePath, env.transport, env.fs);
      oks := oks + [err.None?];
    }
    assert oks == DownloadOks(documents, sv, cfg.repo, env);
    ps := FanIn(oks);
  }

  method EncryptDocuments(documents: seq<Document>, cfg: Config, env: Env) returns (ps: ProcessStatus)
    ensures ps == Tally(EncryptOks(documents, cfg, env))
  {
    var oks: seq<bool> := [];
    for i := 0 to |documents|
      invariant |oks| == i
      invariant forall k :: 0 <= k < i ==> oks[k] == EncryptOk(cfg, env, documents[k])
    {
      var doc := documents[i];
      var filePath := DownloadPath(cfg.repo, doc);
      var fileGPGName := CipherPath(doc);
      // one error variable, reassigned by each step
      var err := env.fs.open(filePath);
      if err.None? {
        err := env.encrypt(fileGPGName, filePath, cfg.pubKey);
      }
      oks := oks + [err.None?];
    }
    assert oks == EncryptOks(documents, cfg, env);
    ps := FanIn(oks);
  }

  /** Launching one more upload goroutine adds its outcome at the end. */
  lemma UploadOksSnoc(ds: seq<Document>, d: Document, cfg: Config, env: Env)
    ensures UploadOks(ds + [d], cfg, env) == UploadOks(ds, cfg, env) + [UploadOk(cfg, env, d)]
  {
    var l, r := UploadOks(ds + [d], cfg, env), UploadOks(ds, cfg, env) + [UploadOk(cfg, env, d)];
    assert |l| == |r|;
    forall k | 0 <= k < |l| ensures l[k] == r[k] {
      if k < |ds| { assert (ds + [d])[k] == ds[k]; }
    }
  }

  /** One upload goroutine: open the ciphertext, then upload it. */
  method UploadItem(b: Box.Box, doc: Document, cfg: Config, env: Env) returns (ok: bool)
    requires b == Box.New(cfg.boxToken)
    ensures ok == UploadOk(cfg, env, doc)
  {
    var fileGPGName := CipherPath(doc);
    ok := env.fs.open(fileGPGName).None?;
    if ok {
      ok := b.Upload(fileGPGName, cfg.boxTargetID, env.transport, env.fs).None?;
    }
  }

  method UploadDocuments(documents: seq<Document>, cfg: Config, env: Env) returns (ps: ProcessStatus)
    ensures ps == Tally(UploadOks(documents, cfg, env))
  {
    var b := Box.New(cfg.boxToken);
    var oks: seq<bool> := [];
    for i := 0 to |documents|
      invariant oks == UploadOks(documents[..i], cfg, env)
    {
      var ok := UploadItem(b, documents[i], cfg, env);
      UploadOksSnoc(documents[..i], documents[i], cfg, env);
      assert documents[..i + 1] == documents[..i] + [documents[i]];
      oks := oks + [ok];
    }
    assert documents[..|documents|] == documents;
    ps := FanIn(oks);
  }

  /** The cleanup stage: a removal is attempted for every document, in
      document order of launch, whatever happened to it before. */
  method RemoveTmpAssets(documents: seq<Document>, env: Env) returns (ps: ProcessStatus, attempted: seq<string>)
    ensures ps == Tally(RemoveOks(documents, env))
    ensures |attempted| == |documents|
    ensures forall k :: 0 <= k < |documents| ==> attempted[k] == CipherPath(documents[k])
  {
    var oks: seq<bool> := [];
    attempted := [];
    for i := 0 to |documents|
      invariant |oks| == i && |attempted| == i
      invariant forall k :: 0 <= k < i ==> oks[k] == RemoveOk(env, documents[k])
      invariant forall k :: 0 <= k < i ==> attempted[k] == CipherPath(documents[k])
    {
      var filePath := CipherPath(documents[i]);
      attempted := attempted + [filePath];
      var err := env.fs.remove(filePath);
      oks := oks + [err.None?];
    }
    assert oks == RemoveOks(documents, env);
    ps := FanIn(oks);
  }

  // ---------------------------------------------------------------------
  // Stage order

  datatype Stage = Download | Encrypt | Upload | Cleanup

  datatype Report = Report(stage: Stage, status: ProcessStatus)

  /** How a run ends. Every outcome after the configuration has been read
      carries the session client it created. */
  datatype RunOutcome =
    | ConfigFailed(message: string)
    | LoginFailed(session: Svcloud.Client, loginError: Svcloud.Error)
    | ListFailed(session: Svcloud.Client, listError: Svcloud.Error)
    | Completed(session: Svcloud.Client, documents: seq<Document>, reports: seq<Report>)

  function Rank(s: Stage): nat {
    match s
    case Download => 0
    case Encrypt => 1
    case Upload => 2
    case Cleanup => 3
  }

  /** The stages a run performs once the documents are listed: download
      always, encrypt with -c, upload and then cleanup with both -u and -c. */
  function Plan(withEncrypt: bool, withUpload: bool): (p: seq<Stage>)
    ensures |p| >= 1 && p[0] == Download
    ensures Encrypt in p <==> withEncrypt
    ensures Upload in p <==> withUpload && withEncrypt
    ensures Cleanup in p <==> Upload in p
  {
    [Download]
      + (if withEncrypt then [Encrypt] else [])
      + (if withUpload && withEncrypt then [Upload, Cleanup] else [])
  }

  /** Stages run in a fixed order, each at most once: download, encrypt,
      upload, cleanup; cleanup is the last stage whenever it runs. */
  lemma PlanIsOrdered(withEncrypt: bool, withUpload: bool)
    ensures var p := Plan(withEncrypt, withUpload);
      && (forall i, j :: 0 <= i < j < |p| ==> Rank(p[i]) < Rank(p[j]))
      && (Cleanup in p ==> p[|p| - 1] == Cleanup && p[|p| - 2] == Upload)
  {
  }

  function StagesOf(reports: seq<Report>): (s: seq<Stage>)
    ensures |s| == |reports| && forall i :: 0 <= i < |reports| ==> s[i] == reports[i].stage
  {
    seq(|reports|, i requires 0 <= i < |reports| => reports[i].stage)
  }

  /** Every report's counters add up to the number of documents. */
  predicate Balanced(reports: seq<Report>, n: int) {
    forall r :: r in reports ==> r.status.success + r.status.fails == n
  }

  /** The reports of a run, from the counters of the stages that ran. */
  function Reports(withEncrypt: bool, withUpload: bool, downloaded: ProcessStatus, encrypted: ProcessStatus,
                   uploaded: ProcessStatus, cleanup: ProcessStatus): (reports: seq<Report>)
    ensures StagesOf(reports) == Plan(withEncrypt, withUpload)
    ensures reports[0].status == downloaded
    ensures withEncrypt ==> reports[1].status == encrypted
    ensures withEncrypt && withUpload ==> reports[2].status == uploaded && reports[3].status == cleanup
  {
    [Report(Download, downloaded)]
      + (if withEncrypt then [Report(Encrypt, encrypted)] else [])
      + (if withUpload && withEncrypt then [Report(Upload, uploaded), Report(Cleanup, cleanup)] else [])
  }

  /** The reports are balanced when every stage that ran is. */
  lemma ReportsBalanced(withEncrypt: bool, withUpload: bool, n: int, downloaded: ProcessStatus,
                        encrypted: ProcessStatus, uploaded: ProcessStatus, cleanup: ProcessStatus)
    requires downloaded.success + downloaded.fails == n
    requires withEncrypt ==> encrypted.success + encrypted.fails == n
    requires withEncrypt && withUpload ==>
               uploaded.success + uploaded.fails == n && cleanup.success + cleanup.fails == n
    ensures Balanced(Reports(withEncrypt, withUpload, downloaded, encrypted, uploaded, cleanup), n)
  {
  }

  /** The stages after listing: download, then encrypt with -c, then upload
      and the deferred cleanup with -u and -c. A stage that does not run
      leaves its counters at zero, and they are not reported. */
  method RunStages(withEncrypt: bool, withUpload: bool, documents: seq<Document>, sv: Svcloud.Client,
                   cfg: Config, env: Env)
    returns (reports: seq<Report>)
    requires sv.authCookie.Some?
    ensures StagesOf(reports) == Plan(withEncrypt, withUpload)
    ensures Balanced(reports, |documents|)
    ensures reports[0].status == Tally(DownloadOks(documents, sv, cfg.repo, env))
    ensures withEncrypt ==> reports[1].status == Tally(EncryptOks(documents, cfg, env))
    ensures withEncrypt && withUpload ==>
              && reports[2].status == Tally(UploadOks(documents, cfg, env))
              && reports[3].status == Tally(RemoveOks(documents, env))
  {
    var downloaded := DownloadDocuments(documents, sv, cfg, env);
    var encrypted, uploaded, cleanup := ProcessStatus(0, 0), ProcessStatus(0, 0), ProcessStatus(0, 0);
    if withEncrypt {
      encrypted := EncryptDocuments(documents, cfg, env);
    }
    if withUpload && withEncrypt {
      uploaded := UploadDocuments(documents, cfg, env);
      var attempted;
      cleanup, attempted := RemoveTmpAssets(documents, env);
    }
    reports := Reports(withEncrypt, withUpload, downloaded, encrypted, uploaded, cleanup);
    ReportsBalanced(withEncrypt, withUpload, |documents|, downloaded, encrypted, uploaded, cleanup);
  }

  /** main(): read the configuration, log in, list, then run the stages the
      flags select. Any of the first three failing ends the run before any
      stage starts. */
  method Run(withEncrypt: bool, withUpload: bool, config: Result<Config, string>, env: Env)
    returns (outcome: RunOutcome)
    ensures config.Failure? <==> outcome.ConfigFailed?
    ensures config.Failure? ==> outcome == ConfigFailed(config.error)
    ensures config.Success? ==>
              var cfg := config.value;
              var login := Svcloud.EvaluateLogin(
                env.transport(outcome.session.LoginRequest(cfg.svCloudUsername, cfg.svCloudPassword)));
              && outcome.session.baseURL == cfg.svCloudBaseURL
              && outcome.session.mainURL == cfg.svCloudBaseURL + cfg.svCloudEndpoint
              && (outcome.LoginFailed? <==> login.Failure?)
              && (outcome.LoginFailed? ==> outcome.loginError == login.error)
              && (!outcome.LoginFailed? ==> outcome.session.authCookie == Some(login.value))
    ensures outcome.ListFailed? ==>
              && outcome.session.authCookie.Some?
              && var page := outcome.session.FetchDocumentPage(env.transport);
                 && (page.Failure? ==> outcome.listError == page.error)
                 && (page.Success? ==>
                       && env.parse(page.value).Failure?
                       && outcome.listError == Svcloud.ParseError(env.parse(page.value).error))
    ensures outcome.Completed? ==>
              && config.Success?
              && outcome.session.authCookie.Some?
              && outcome.session.FetchDocumentPage(env.transport).Success?
              && var matches := env.parse(outcome.session.FetchDocumentPage(env.transport).value);
                 && matches.Success?
                 && |outcome.documents| == |matches.value|
                 && forall k :: 0 <= k < |matches.value| ==>
                      outcome.documents[k] == Svcloud.ToDocument(matches.value[k])
    ensures outcome.Completed? ==>
              var cfg, docs, reports := config.value, outcome.documents, outcome.reports;
              && StagesOf(reports) == Plan(withEncrypt, withUpload)
              && (forall r :: r in reports ==> r.status.success + r.status.fails == |docs|)
              && reports[0].status == Tally(DownloadOks(docs, outcome.session, cfg.repo, env))
              && (withEncrypt ==> reports[1].status == Tally(EncryptOks(docs, cfg, env)))
              && (withEncrypt && withUpload ==>
                    && reports[2].status == Tally(UploadOks(docs, cfg, env))
                    && reports[3].status == Tally(RemoveOks(docs, env)))
  {
    if config.Failure? {
      return ConfigFailed(config.error);
    }
    var cfg := config.value;
    var sv := new Svcloud.Client.New(cfg.svCloudBaseURL, cfg.svCloudEndpoint);

    var login := sv.Login(cfg.svCloudUsername, cfg.svCloudPassword, env.transport);
    if login.Failure? {
      return LoginFailed(sv, login.error);
    }

    var listed := sv.ListDocuments(env.transport, env.parse);
    if listed.Failure? {
      return ListFailed(sv, listed.error);
    }

    var reports := RunStages(withEncrypt, withUpload, listed.value, sv, cfg, env);
    outcome := Completed(sv, listed.value, reports);
  }

  // ---------------------------------------------------------------------
  // Properties of the accounting and of the paths

  lemma {:induction false} AllSucceed(oks: seq<bool>)
    requires forall i :: 0 <= i < |oks| ==> oks[i]
    ensures Tally(oks) == ProcessStatus(|oks|, 0)
  {
    if oks != [] {
      AllSucceed(oks[..|oks| - 1]);
    }
  }

  lemma {:induction false} AllFail(oks: seq<bool>)
    requires forall i :: 0 <= i < |oks| ==> !oks[i]
    ensures Tally(oks) == ProcessStatus(0, |oks|)
  {
    if oks != [] {
      AllFail(oks[..|oks| - 1]);
    }
  }

  lemma NoDocuments()
    ensures Tally([]) == ProcessStatus(0, 0)
  {
  }

  /** success counts the successful items: it is the number of true outcomes. */
  lemma {:induction false} CountOkIsTrueCount(oks: seq<bool>)
    ensures CountOk(oks) == multiset(oks)[true]
  {
    if oks != [] {
      var init := oks[..|oks| - 1];
      assert oks == init + [oks[|oks| - 1]];
      CountOkIsTrueCount(init);
    }
  }

  /** The counters do not depend on which item produced which outcome: any
      rearrangement of the outcomes gives the same tally. */
  lemma TallyIgnoresOrder(a: seq<bool>, b: seq<bool>)
    requires multiset(a) == multiset(b)
    ensures Tally(a) == Tally(b)
  {
    CountOkIsTrueCount(a);
    CountOkIsTrueCount(b);
    assert |a| == |multiset(a)| == |b|;
  }

  /** Documents with different names never share a ciphertext path. */
  lemma CipherPathInjective(a: Document, b: Document)
    requires CipherPath(a) == CipherPath(b)
    ensures a.name == b.name
  {
    var p := CipherPath(a);
    assert a.name == p[5..|p| - 4];
    assert b.name == CipherPath(b)[5..|CipherPath(b)| - 4];
  }

  /** The upload names the file after its ciphertext: Name + ".gpg". */
  lemma UploadedName(d: Document)
    requires '/' !in d.name
    ensures Files.BaseName(CipherPath(d)) == d.name + ".gpg"
  {
    assert CipherPath(d) == "/tmp" + "/" + (d.name + ".gpg");
    Box.BaseNameUnderDirectory("/tmp", d.name + ".gpg");
  }
}
