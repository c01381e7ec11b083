/** The two pipelines of the apptainer sub-application: `build` turns a Dockerfile
    or an existing image reference into a `.sif` archive, and `publish` pushes an
    archive to the account's single ECR Public registry.

    Every answer from outside (whether a path exists, the docker daemon, the random
    name generator, the ECR Public API, the apptainer processes) is an input. Each
    pipeline returns the ordered trace of the side-effecting calls it made and
    either its result or the failure that stopped it. */
module Apptainer {
  import opened Wrappers
  import opened Text
  import opened Paths
  import opened Tools

  /** The stored credentials. The configured registry name is never consulted:
      the registry is discovered through the API. */
  datatype Settings = Settings(accessKeyId: string, secretAccessKey: string, ecrPublicRegistry: string)

  /** A side-effecting call, in the order the pipelines make them. */
  datatype Action =
    | DockerBuild(tag: string, context: string, dockerfile: string)
    | GetAuthorizationToken(region: string, accessKeyId: string, secretAccessKey: string)  // on a client for `region` with these credentials
    | DescribeRegistries
    | GetRepositoryCatalogData(registryId: string, repositoryName: string)
    | CreateRepository(repositoryName: string)
    | RunCommand(command: string)

  /** The underlying error of a failure. */
  datatype Cause =
    | NoCause
    | ClientError                        // creating the ECR Public client raised
    | TokenError                         // the authorization-token call raised
    | DecodeError                        // the token is not base64 of UTF-8 text
    | RegistriesError                    // listing the registries raised
    | DockerError                        // creating the docker client or building the image raised
    | CommandFailed(error: ProcessError) // the executor raised
    | TokenFields(count: nat)            // unpacking ValueError: the decoded token has `count` fields, not two
    | CatalogError                       // the catalog lookup raised something other than not-found
    | CreateError                        // creating the repository raised

  /** An abort (shown to the user with a subject line) or an error that propagates as raised. */
  datatype Failure =
    | Abort(subject: string, message: string, cause: Cause)
    | Raised(cause: Cause)

  /** The answers a build receives from outside. */
  datatype BuildWorld = BuildWorld(
    generatedName: string,  // the random two-word name on offer
    sourceExists: bool,     // whether the source reference names an existing path
    dockerBuildOk: bool,    // whether the local docker build succeeds
    convert: Child)         // the `apptainer build` process

  /** The outcome of the repository catalog lookup. */
  datatype Lookup = Found | NotFound | LookupError

  datatype Registry = Registry(registryId: string, registryUri: string)

  datatype Credentials = Credentials(username: string, password: string)

  /** The answer of the authorization-token call. */
  datatype TokenAnswer =
    | TokenRefused           // the call raised (bad credentials, no network)
    | Undecodable            // the token is not base64, or its bytes are not UTF-8
    | Decoded(text: string)  // the token after base64 and UTF-8 decoding

  /** The answers a publish receives from outside. */
  datatype PublishWorld = PublishWorld(
    clientOk: bool,             // whether creating the ECR Public client succeeds
    token: TokenAnswer,
    registriesOk: bool,         // whether listing the registries succeeds
    registries: seq<Registry>,  // the registries of the account
    catalog: Lookup,
    createOk: bool,             // whether creating the repository succeeds
    login: Child,               // the `apptainer registry login` process
    push: Child)                // the `apptainer push` process

  const BuildFailed := "Build failed"
  const PublishFailed := "Publish failed"
  const LocalBuildMessage := "Failed to build from file path."
  const RegistryCountMessage := "Did not find one and only one registry"
  /** ECR Public is served from this region only. */
  const Region := "us-east-1"

  /** The image name of a build: the one supplied, used verbatim, or else the generated one. */
  function ImageName(supplied: Option<string>, generated: string): string {
    match supplied
    case Some(n) => n
    case None => generated
  }

  /** The source reference of a build: the one supplied, or else `./Dockerfile`. */
  function ImageSource(supplied: Option<string>): string {
    match supplied
    case Some(s) => s
    case None => "./Dockerfile"
  }

  /** The tag of a publish: the one supplied, or else `latest`. */
  function ImageTag(supplied: Option<string>): string {
    match supplied
    case Some(t) => t
    case None => "latest"
  }

  /** The output directory of a build: the one supplied, or else the current directory. */
  function OutputDir(supplied: Option<Path>): Path {
    match supplied
    case Some(d) => d
    case None => Cwd
  }

  function LocalTag(name: string): string {
    "local/" + name + ":latest"
  }

  function DaemonRef(name: string): string {
    "docker-daemon://" + LocalTag(name)
  }

  /** The reference handed to the converter: the freshly built local image when the
      source is a path, the source reference unchanged otherwise. */
  function ConvertSource(source: string, sourceExists: bool, name: string): string {
    if sourceExists then DaemonRef(name) else source
  }

  function ArchivePath(dir: Path, name: string): Path {
    Div(dir, name + ".sif")
  }

  /** A command line that runs `apptainer` with the arguments `args`. */
  function Apptainer(args: string): string {
    "apptainer " + args
  }

  function ConvertCommand(target: Path, source: string): (cmd: string)
    ensures |Words(cmd)| >= 1 && Words(cmd)[0] == "apptainer"
  {
    ApptainerProgram("build " + Show(target) + " " + source);
    Apptainer("build " + Show(target) + " " + source)
  }

  /** How the message of the conversion abort quotes the source reference. */
  function Quoted(s: string): string {
    "'" + s + "'"
  }

  function ConvertMessage(source: string): string {
    "Failed to build apptainer image from image_source=" + Quoted(source)
  }

  /** Unpacks the decoded token `username:password`; it succeeds exactly when the
      token holds one colon, and the two fields then rebuild the token. */
  function SplitToken(token: string): (c: Option<Credentials>)
    ensures c.Some? <==> Count(token, ':') == 1
    ensures c.Some? ==> c.value.username + ":" + c.value.password == token
    ensures c.Some? ==> ':' !in c.value.username && ':' !in c.value.password
  {
    var fields := Split(token, ':');
    SplitFields(token, ':');
    if |fields| == 2 then
      JoinSplit(token, ':');
      assert Join(fields, ':') == fields[0] + [':'] + fields[1];
      Some(Credentials(fields[0], fields[1]))
    else None
  }

  /** `registry_uri.split("/")[0]`: the URI up to, and without, its first '/'. */
  function RegistryDomain(uri: string): (domain: string)
    ensures domain <= uri && '/' !in domain
    ensures domain == uri || uri[|domain|] == '/'
  {
    SplitHead(uri, '/');
    Split(uri, '/')[0]
  }

  function ImageTarget(name: string, tag: string): string {
    name + ":" + tag
  }

  function LoginCommand(c: Credentials, domain: string): (cmd: string)
    ensures |Words(cmd)| >= 1 && Words(cmd)[0] == "apptainer"
  {
    ApptainerProgram("registry login --username=" + c.username + " --password=" + c.password + " oras://" + domain);
    Apptainer("registry login --username=" + c.username + " --password=" + c.password + " oras://" + domain)
  }

  function PublishUrl(uri: string, target: string): string {
    "oras://" + uri + "/" + target
  }

  function PushCommand(image: Path, url: string): (cmd: string)
    ensures |Words(cmd)| >= 1 && Words(cmd)[0] == "apptainer"
  {
    ApptainerProgram("push " + Show(image) + " " + url);
    Apptainer("push " + Show(image) + " " + url)
  }

  /** Whether the executor succeeds on `command`: the command line tokenises and its
      process exits with 0. */
  predicate Succeeds(command: string, child: Child) {
    Tokenizes(command) && child.returnCode == 0
  }

  /** The error the executor raises when an `apptainer` command line does not succeed. */
  function CommandError(command: string, child: Child): ProcessError {
    if Tokenizes(command) then Subprocess("apptainer", Diagnostic(child)) else Untokenizable
  }

  /** A password that contains a colon cannot be unpacked, whatever the username. */
  lemma PasswordWithColonFails(username: string, password: string)
    requires ':' in password
    ensures SplitToken(username + ":" + password).None?
  {
    CountAppend(username + ":", password, ':');
    CountAppend(username, ":", ':');
  }

  /** Every command the pipelines issue is run by the program `apptainer`. */
  lemma ApptainerProgram(args: string)
    ensures |Words(Apptainer(args))| >= 1 && Words(Apptainer(args))[0] == "apptainer"
  {
    assert Apptainer(args) == "apptainer" + " " + args;
    WordsHead("apptainer", args);
  }

  /** Builds the archive `<output_dir>/<name>.sif`. When the source names an existing
      path, a local docker image is built from it first and the conversion starts
      from that image; a failure of either step aborts with subject "Build failed". */
  method Build(imageName: Option<string>, imageSource: Option<string>, outputDir: Option<Path>, world: BuildWorld)
    returns (trace: seq<Action>, r: Result<Path, Failure>)
    ensures var name := ImageName(imageName, world.generatedName);
            var src := Parse(ImageSource(imageSource));
            world.sourceExists ==>
              |trace| >= 1 && trace[0] == DockerBuild(LocalTag(name), Show(Parent(src)), Name(src))
    ensures !world.sourceExists ==> forall a | a in trace :: !a.DockerBuild?
    ensures world.sourceExists && !world.dockerBuildOk ==>
              |trace| == 1 && r == Failure(Abort(BuildFailed, LocalBuildMessage, DockerError))
    ensures var name := ImageName(imageName, world.generatedName);
            var source := ConvertSource(ImageSource(imageSource), world.sourceExists, name);
            var target := ArchivePath(OutputDir(outputDir), name);
            var command := ConvertCommand(target, source);
            !world.sourceExists || world.dockerBuildOk ==>
              && trace == (if world.sourceExists then [trace[0]] else []) + [RunCommand(command)]
              && (Succeeds(command, world.convert) ==> r == Success(target))
              && (!Tokenizes(command) ==>
                   r == Failure(Abort(BuildFailed, ConvertMessage(source), CommandFailed(Untokenizable))))
              && (Tokenizes(command) && world.convert.returnCode != 0 ==>
                   r == Failure(Abort(BuildFailed, ConvertMessage(source),
                                      CommandFailed(Subprocess("apptainer", Diagnostic(world.convert))))))
    ensures var name := ImageName(imageName, world.generatedName);
            var source := ConvertSource(ImageSource(imageSource), world.sourceExists, name);
            var command := ConvertCommand(ArchivePath(OutputDir(outputDir), name), source);
            r.Success? <==> (!world.sourceExists || world.dockerBuildOk) && Succeeds(command, world.convert)
  {
    var name := ImageName(imageName, world.generatedName);
    var dir := OutputDir(outputDir);
    var source := ImageSource(imageSource);
    trace := [];
    var sourcePath := Parse(source);
    if world.sourceExists {
      trace := trace + [DockerBuild(LocalTag(name), Show(Parent(sourcePath)), Name(sourcePath))];
      if !world.dockerBuildOk {
        return trace, Failure(Abort(BuildFailed, LocalBuildMessage, DockerError));
      }
      source := DaemonRef(name);
    }
    var target := ArchivePath(dir, name);
    var command := ConvertCommand(target, source);
    trace := trace + [RunCommand(command)];
    var outcome := RunCommandLogged(command, world.convert);
    if outcome.Fail? {
      return trace, Failure(Abort(BuildFailed, ConvertMessage(source), CommandFailed(outcome.error)));
    }
    return trace, Success(target);
  }

  /** What a publish did: the calls it made, and the published URL or the failure. */
  datatype Publication = Publication(trace: seq<Action>, result: Result<string, Failure>)

  /** The publish pipeline as a value: the reference the `Publish` method is proved against. */
  function Publishing(settings: Settings, image: Path, tag: string, world: PublishWorld): Publication {
    if !world.clientOk then Publication([], Failure(Raised(ClientError)))
    else
    var fetched := [GetAuthorizationToken(Region, settings.accessKeyId, settings.secretAccessKey)];
    match world.token
    case TokenRefused => Publication(fetched, Failure(Raised(TokenError)))
    case Undecodable => Publication(fetched, Failure(Raised(DecodeError)))
    case Decoded(decoded) =>
      match SplitToken(decoded)
      case None => Publication(fetched, Failure(Raised(TokenFields(|Split(decoded, ':')|))))
      case Some(credentials) =>
        var listed := fetched + [DescribeRegistries];
        if !world.registriesOk then Publication(listed, Failure(Raised(RegistriesError)))
        else if |world.registries| != 1 then
          Publication(listed, Failure(Abort(PublishFailed, RegistryCountMessage, NoCause)))
        else Resolving(listed, credentials, world.registries[0], image, tag, world)
  }

  /** Whether a publish gets as far as the catalog lookup: the client is created, the
      token is fetched, decodes and unpacks, and exactly one registry is listed. */
  predicate ReachesCatalog(world: PublishWorld) {
    && world.clientOk
    && world.token.Decoded?
    && SplitToken(world.token.text).Some?
    && world.registriesOk
    && |world.registries| == 1
  }

  /** The repository steps of a publish, after the calls `before`: look the repository
      up, create it on a not-found answer, then log in and push. */
  function Resolving(before: seq<Action>, credentials: Credentials, registry: Registry, image: Path, tag: string,
                     world: PublishWorld): Publication {
    var looked := before + [GetRepositoryCatalogData(registry.registryId, Stem(image))];
    match world.catalog
    case LookupError => Publication(looked, Failure(Raised(CatalogError)))
    case NotFound =>
      var created := looked + [CreateRepository(Stem(image))];
      if !world.createOk then Publication(created, Failure(Raised(CreateError)))
      else Uploading(created, credentials, registry, image, tag, world)
    case Found => Uploading(looked, credentials, registry, image, tag, world)
  }

  /** The login and push steps of a publish, after the calls `before`. */
  function Uploading(before: seq<Action>, credentials: Credentials, registry: Registry, image: Path, tag: string,
                     world: PublishWorld): Publication {
    var login := LoginCommand(credentials, RegistryDomain(registry.registryUri));
    if !Succeeds(login, world.login) then
      Publication(before + [RunCommand(login)], Failure(Raised(CommandFailed(CommandError(login, world.login)))))
    else
      var url := PublishUrl(registry.registryUri, ImageTarget(Stem(image), tag));
      var push := PushCommand(image, url);
      if !Succeeds(push, world.push) then
        Publication(before + [RunCommand(login), RunCommand(push)],
                    Failure(Raised(CommandFailed(CommandError(push, world.push)))))
      else Publication(before + [RunCommand(login), RunCommand(push)], Success(url))
  }

  /** Whether a publish gets as far as logging in: it reaches the catalog lookup, and
      the repository exists or has just been created. */
  predicate ReachesLogin(world: PublishWorld) {
    && ReachesCatalog(world)
    && (world.catalog.Found? || (world.catalog.NotFound? && world.createOk))
  }

  /** Publishes the archive `image` as `<stem>:<tag>`. The token is fetched and
      unpacked first; exactly one registry must exist; the repository is created only
      on a not-found answer; then apptainer logs in to the registry domain and pushes
      to `oras://<registry uri>/<stem>:<tag>`. */
  method Publish(settings: Settings, image: Path, tag: Option<string>, world: PublishWorld)
    returns (trace: seq<Action>, r: Result<string, Failure>)
    ensures Publication(trace, r) == Publishing(settings, image, ImageTag(tag), world)
  {
    var imageName := Stem(image);
    if !world.clientOk {
      return [], Failure(Raised(ClientError));
    }
    trace := [GetAuthorizationToken(Region, settings.accessKeyId, settings.secretAccessKey)];
    var decoded: string;
    match world.token {
      case TokenRefused =>
        return trace, Failure(Raised(TokenError));
      case Undecodable =>
        return trace, Failure(Raised(DecodeError));
      case Decoded(text) =>
        decoded := text;
    }
    var credentials := SplitToken(decoded);
    if credentials.None? {
      return trace, Failure(Raised(TokenFields(|Split(decoded, ':')|)));
    }
    trace := trace + [DescribeRegistries];
    if !world.registriesOk {
      return trace, Failure(Raised(RegistriesError));
    }
    if |world.registries| != 1 {
      return trace, Failure(Abort(PublishFailed, RegistryCountMessage, NoCause));
    }
    var registry := world.registries[0];
    trace := trace + [GetRepositoryCatalogData(registry.registryId, imageName)];
    match world.catalog {
      case LookupError =>
        return trace, Failure(Raised(CatalogError));
      case NotFound =>
        trace := trace + [CreateRepository(imageName)];
        if !world.createOk {
          return trace, Failure(Raised(CreateError));
        }
      case Found =>
    }
    trace, r := Upload(trace, credentials.value, registry, image, ImageTag(tag), world);
  }

  /** Logs in to the registry domain and, if that succeeds, pushes the archive;
      `before` are the calls already made. */
  method Upload(before: seq<Action>, credentials: Credentials, registry: Registry, image: Path, tag: string,
                world: PublishWorld)
    returns (trace: seq<Action>, r: Result<string, Failure>)
    ensures Publication(trace, r) == Uploading(before, credentials, registry, image, tag, world)
  {
    var domain := RegistryDomain(registry.registryUri);
    var login := LoginCommand(credentials, domain);
    trace := before + [RunCommand(login)];
    var outcome := RunCommandLogged(login, world.login);
    if outcome.Fail? {
      return trace, Failure(Raised(CommandFailed(outcome.error)));
    }
    var url := PublishUrl(registry.registryUri, ImageTarget(Stem(image), tag));
    var push := PushCommand(image, url);
    trace := trace + [RunCommand(push)];
    outcome := RunCommandLogged(push, world.push);
    if outcome.Fail? {
      return trace, Failure(Raised(CommandFailed(outcome.error)));
    }
    return trace, Success(url);
  }

  /** Login and push append the login command, then the push command only when the
      login succeeded. */
  lemma UploadingAppends(before: seq<Action>, credentials: Credentials, registry: Registry, image: Path,
                         tag: string, world: PublishWorld)
    ensures var p := Uploading(before, credentials, registry, image, tag, world);
            var login := RunCommand(LoginCommand(credentials, RegistryDomain(registry.registryUri)));
            var push := RunCommand(PushCommand(image, PublishUrl(registry.registryUri, ImageTarget(Stem(image), tag))));
            p.trace == before + (if !Succeeds(login.command, world.login) then [login] else [login, push])
  {
  }

  /** Once the client is created, the token is always fetched first, before anything
      else is asked of the registry; when creating the client fails, nothing is called. */
  lemma TokenFetchedFirst(settings: Settings, image: Path, tag: string, world: PublishWorld)
    ensures var p := Publishing(settings, image, tag, world);
            world.clientOk ==>
              |p.trace| >= 1 && p.trace[0] == GetAuthorizationToken(Region, settings.accessKeyId, settings.secretAccessKey)
    ensures !world.clientOk ==> Publishing(settings, image, tag, world) == Publication([], Failure(Raised(ClientError)))
  {
    var p := Publishing(settings, image, tag, world);
    if ReachesLogin(world) {
      var registry := world.registries[0];
      UploadingAppends(p.trace[..3 + (if world.catalog.NotFound? then 1 else 0)],
                       SplitToken(world.token.text).value, registry, image, tag, world);
    }
  }

  /** A failing token call, an undecodable token and a failing registry listing each
      raise right after the call that failed: nothing later is asked of the registry. */
  lemma FetchErrorsPropagate(settings: Settings, image: Path, tag: string, world: PublishWorld)
    requires world.clientOk
    ensures var fetched := [GetAuthorizationToken(Region, settings.accessKeyId, settings.secretAccessKey)];
            && (world.token.TokenRefused? ==>
                  Publishing(settings, image, tag, world) == Publication(fetched, Failure(Raised(TokenError))))
            && (world.token.Undecodable? ==>
                  Publishing(settings, image, tag, world) == Publication(fetched, Failure(Raised(DecodeError))))
            && (world.token.Decoded? && SplitToken(world.token.text).Some? && !world.registriesOk ==>
                  Publishing(settings, image, tag, world) ==
                  Publication(fetched + [DescribeRegistries], Failure(Raised(RegistriesError))))
  {
  }

  /** A token that does not unpack into exactly two fields stops the publish right
      after it was fetched. */
  lemma TokenMustUnpack(settings: Settings, image: Path, tag: string, world: PublishWorld)
    requires world.clientOk && world.token.Decoded?
    requires |Split(world.token.text, ':')| != 2
    ensures Publishing(settings, image, tag, world) ==
            Publication([GetAuthorizationToken(Region, settings.accessKeyId, settings.secretAccessKey)],
                        Failure(Raised(TokenFields(|Split(world.token.text, ':')|))))
  {
    SplitFields(world.token.text, ':');
  }

  /** Unless there is exactly one registry, the publish aborts with "Publish failed"
      after listing the registries: no catalog lookup, repository creation, login or
      push happens. */
  lemma OneRegistryRequired(settings: Settings, image: Path, tag: string, world: PublishWorld)
    requires world.clientOk && world.token.Decoded? && SplitToken(world.token.text).Some?
    requires world.registriesOk && |world.registries| != 1
    ensures Publishing(settings, image, tag, world) ==
            Publication([GetAuthorizationToken(Region, settings.accessKeyId, settings.secretAccessKey), DescribeRegistries],
                        Failure(Abort(PublishFailed, RegistryCountMessage, NoCause)))
  {
  }

  /** The repository-creating calls of a trace, in order. */
  function Creations(trace: seq<Action>): seq<Action> {
    if |trace| == 0 then []
    else (if trace[0].CreateRepository? then [trace[0]] else []) + Creations(trace[1..])
  }

  lemma {:induction false} CreationsAppend(a: seq<Action>, b: seq<Action>)
    ensures Creations(a + b) == Creations(a) + Creations(b)
    decreases |a|
  {
    if |a| == 0 {
      assert a + b == b;
    } else {
      var head := if a[0].CreateRepository? then [a[0]] else [];
      assert (a + b)[0] == a[0];
      assert (a + b)[1..] == a[1..] + b;
      CreationsAppend(a[1..], b);
      calc {
        Creations(a + b);
        head + Creations(a[1..] + b);
        head + (Creations(a[1..]) + Creations(b));
        (head + Creations(a[1..])) + Creations(b);
      }
    }
  }

  lemma UploadingCreatesNothing(before: seq<Action>, credentials: Credentials, registry: Registry, image: Path,
                                tag: string, world: PublishWorld)
    ensures Creations(Uploading(before, credentials, registry, image, tag, world).trace) == Creations(before)
  {
    var p := Uploading(before, credentials, registry, image, tag, world);
    UploadingAppends(before, credentials, registry, image, tag, world);
    var after := p.trace[|before|..];
    assert p.trace == before + after;
    CreationsAppend(before, after);
    var login := RunCommand(LoginCommand(credentials, RegistryDomain(registry.registryUri)));
    var push := RunCommand(PushCommand(image, PublishUrl(registry.registryUri, ImageTarget(Stem(image), tag))));
    assert Creations([push]) == [];
    if Succeeds(login.command, world.login) {
      assert after == [login, push];
      assert after[1..] == [push];
    } else {
      assert after == [login];
      assert after[1..] == [];
    }
  }

  /** The repository steps create the image's repository once on a not-found answer
      and create nothing otherwise. */
  lemma ResolvingCreations(before: seq<Action>, credentials: Credentials, registry: Registry, image: Path,
                           tag: string, world: PublishWorld)
    ensures Creations(Resolving(before, credentials, registry, image, tag, world).trace) ==
            Creations(before) + (if world.catalog.NotFound? then [CreateRepository(Stem(image))] else [])
  {
    var looked := before + [GetRepositoryCatalogData(registry.registryId, Stem(image))];
    CreationsAppend(before, [GetRepositoryCatalogData(registry.registryId, Stem(image))]);
    assert Creations(looked) == Creations(before);
    match world.catalog
    case LookupError =>
    case NotFound =>
      var created := looked + [CreateRepository(Stem(image))];
      CreationsAppend(looked, [CreateRepository(Stem(image))]);
      if world.createOk {
        UploadingCreatesNothing(created, credentials, registry, image, tag, world);
      }
    case Found =>
      UploadingCreatesNothing(looked, credentials, registry, image, tag, world);
  }

  /** The repository is created once when the catalog lookup answers not-found, and
      never otherwise; no other repository is ever created. */
  lemma CreatedOnlyWhenNotFound(settings: Settings, image: Path, tag: string, world: PublishWorld)
    ensures Creations(Publishing(settings, image, tag, world).trace) ==
              if ReachesCatalog(world) && world.catalog.NotFound?
              then [CreateRepository(Stem(image))] else []
  {
    var fetched := [GetAuthorizationToken(Region, settings.accessKeyId, settings.secretAccessKey)];
    var listed := fetched + [DescribeRegistries];
    CreationsAppend(fetched, [DescribeRegistries]);
    assert Creations(listed) == [];
    if ReachesCatalog(world) {
      ResolvingCreations(listed, SplitToken(world.token.text).value, world.registries[0], image, tag, world);
    }
  }

  /** Any other failure of the catalog lookup propagates: nothing is created and no
      command is run. */
  lemma CatalogErrorPropagates(settings: Settings, image: Path, tag: string, world: PublishWorld)
    requires ReachesCatalog(world) && world.catalog.LookupError?
    ensures var p := Publishing(settings, image, tag, world);
            && p.result == Failure(Raised(CatalogError))
            && p.trace == [GetAuthorizationToken(Region, settings.accessKeyId, settings.secretAccessKey), DescribeRegistries,
                           GetRepositoryCatalogData(world.registries[0].registryId, Stem(image))]
  {
  }

  /** No command runs unless the publish reaches the login; the login comes right
      before the push to `oras://<registry uri>/<stem>:<tag>`, a failed login ends the
      publish, and a failed command raises the executor's error: the `apptainer`
      program and its last diagnostic line, or the tokenisation error. */
  lemma LoginThenPush(settings: Settings, image: Path, tag: string, world: PublishWorld)
    ensures var p := Publishing(settings, image, tag, world);
            !ReachesLogin(world) ==> forall a | a in p.trace :: !a.RunCommand?
    ensures var p := Publishing(settings, image, tag, world);
            ReachesLogin(world) ==>
              var registry := world.registries[0];
              var login := LoginCommand(SplitToken(world.token.text).value, RegistryDomain(registry.registryUri));
              var push := PushCommand(image, PublishUrl(registry.registryUri, ImageTarget(Stem(image), tag)));
              && (!Succeeds(login, world.login) ==>
                    p.trace[|p.trace| - 1] == RunCommand(login) &&
                    p.result == Failure(Raised(CommandFailed(CommandError(login, world.login)))))
              && (Succeeds(login, world.login) ==>
                    |p.trace| >= 2 && p.trace[|p.trace| - 2] == RunCommand(login) &&
                    p.trace[|p.trace| - 1] == RunCommand(push))
              && (Succeeds(login, world.login) && !Succeeds(push, world.push) ==>
                    p.result == Failure(Raised(CommandFailed(CommandError(push, world.push)))))
  {
    if ReachesLogin(world) {
      var registry := world.registries[0];
      var looked := [GetAuthorizationToken(Region, settings.accessKeyId, settings.secretAccessKey), DescribeRegistries,
                     GetRepositoryCatalogData(registry.registryId, Stem(image))];
      var before := looked + (if world.catalog.NotFound? then [CreateRepository(Stem(image))] else []);
      UploadingAppends(before, SplitToken(world.token.text).value, registry, image, tag, world);
    }
  }

  /** A publish succeeds exactly when it reaches the login and both commands succeed,
      and then it yields the URL it pushed to. */
  lemma PublishSucceeds(settings: Settings, image: Path, tag: string, world: PublishWorld)
    ensures var p := Publishing(settings, image, tag, world);
            p.result.Success? <==>
              ReachesLogin(world) &&
              (var registry := world.registries[0];
               && Succeeds(LoginCommand(SplitToken(world.token.text).value, RegistryDomain(registry.registryUri)),
                           world.login)
               && Succeeds(PushCommand(image, PublishUrl(registry.registryUri, ImageTarget(Stem(image), tag))),
                           world.push))
    ensures var p := Publishing(settings, image, tag, world);
            p.result.Success? ==>
              p.result.value == PublishUrl(world.registries[0].registryUri, ImageTarget(Stem(image), tag))
  {
  }

  /** A publish whose registry catalog has no repository for the image yet and whose
      commands all succeed makes exactly these calls: token, registries, catalog
      lookup, creation of the repository named after the image, login, push. */
  lemma PublishToNewRepository(settings: Settings, image: Path, tag: string, registry: Registry, world: PublishWorld)
    requires world.clientOk && world.token.Decoded? && Count(world.token.text, ':') == 1
    requires world.registriesOk && world.registries == [registry] && world.catalog == NotFound && world.createOk
    requires Succeeds(LoginCommand(SplitToken(world.token.text).value, RegistryDomain(registry.registryUri)),
                      world.login)
    requires Succeeds(PushCommand(image, PublishUrl(registry.registryUri, ImageTarget(Stem(image), tag))), world.push)
    ensures var url := PublishUrl(registry.registryUri, ImageTarget(Stem(image), tag));
            Publishing(settings, image, tag, world) ==
            Publication([GetAuthorizationToken(Region, settings.accessKeyId, settings.secretAccessKey), DescribeRegistries,
                         GetRepositoryCatalogData(registry.registryId, Stem(image)), CreateRepository(Stem(image)),
                         RunCommand(LoginCommand(SplitToken(world.token.text).value,
                                                 RegistryDomain(registry.registryUri))),
                         RunCommand(PushCommand(image, url))],
                        Success(url))
  {
    var credentials := SplitToken(world.token.text).value;
    var listed := [GetAuthorizationToken(Region, settings.accessKeyId, settings.secretAccessKey), DescribeRegistries];
    PublishingResolves(settings, image, tag, world);
    ResolvingNewRepository(listed, credentials, registry, image, tag, world);
    var looked := GetRepositoryCatalogData(registry.registryId, Stem(image));
    var creation := CreateRepository(Stem(image));
    var created := listed + [looked, creation];
    UploadingSucceeds(created, credentials, registry, image, tag, world);
    var login := RunCommand(LoginCommand(credentials, RegistryDomain(registry.registryUri)));
    var push := RunCommand(PushCommand(image, PublishUrl(registry.registryUri, ImageTarget(Stem(image), tag))));
    ThreePairs(listed[0], listed[1], looked, creation, login, push);
  }

  lemma ThreePairs<T>(a: T, b: T, c: T, d: T, e: T, f: T)
    ensures [a, b] + [c, d] + [e, f] == [a, b, c, d, e, f]
  {
  }

  /** With a token that unpacks and exactly one registry, the publish goes on to the
      repository steps after fetching the token and listing the registries. */
  lemma PublishingResolves(settings: Settings, image: Path, tag: string, world: PublishWorld)
    requires ReachesCatalog(world)
    ensures Publishing(settings, image, tag, world) ==
            Resolving([GetAuthorizationToken(Region, settings.accessKeyId, settings.secretAccessKey), DescribeRegistries],
                      SplitToken(world.token.text).value, world.registries[0], image, tag, world)
  {
    assert [GetAuthorizationToken(Region, settings.accessKeyId, settings.secretAccessKey)] + [DescribeRegistries]
        == [GetAuthorizationToken(Region, settings.accessKeyId, settings.secretAccessKey), DescribeRegistries];
  }

  /** On a not-found catalog answer and a successful creation, the repository steps
      record the lookup and the creation and go on to the login. */
  lemma ResolvingNewRepository(before: seq<Action>, credentials: Credentials, registry: Registry, image: Path,
                               tag: string, world: PublishWorld)
    requires world.catalog == NotFound && world.createOk
    ensures Resolving(before, credentials, registry, image, tag, world) ==
            Uploading(before + [GetRepositoryCatalogData(registry.registryId, Stem(image)), CreateRepository(Stem(image))],
                      credentials, registry, image, tag, world)
  {
    assert before + [GetRepositoryCatalogData(registry.registryId, Stem(image))] + [CreateRepository(Stem(image))]
        == before + [GetRepositoryCatalogData(registry.registryId, Stem(image)), CreateRepository(Stem(image))];
  }

  /** When both commands exit with 0, login and push are recorded and the push URL is
      the result. */
  lemma UploadingSucceeds(before: seq<Action>, credentials: Credentials, registry: Registry, image: Path,
                          tag: string, world: PublishWorld)
    requires Succeeds(LoginCommand(credentials, RegistryDomain(registry.registryUri)), world.login)
    requires Succeeds(PushCommand(image, PublishUrl(registry.registryUri, ImageTarget(Stem(image), tag))), world.push)
    ensures var url := PublishUrl(registry.registryUri, ImageTarget(Stem(image), tag));
            Uploading(before, credentials, registry, image, tag, world) ==
            Publication(before + [RunCommand(LoginCommand(credentials, RegistryDomain(registry.registryUri))),
                                  RunCommand(PushCommand(image, url))],
                        Success(url))
  {
  }

  /** Building from `./<file>` (by default `./Dockerfile`) as `name` into the current
      directory: a local image `local/<name>:latest` is built from the directory `.`
      and its `<file>`, then converted from `docker-daemon://local/<name>:latest` into
      `<name>.sif`. */
  method BuildFromDockerfile(name: string, file: string, source: Option<string>, world: BuildWorld)
    returns (trace: seq<Action>, r: Result<Path, Failure>)
    requires name != "" && '/' !in name && Unquoted(name)
    requires file != "" && file != "." && '/' !in file
    requires ImageSource(source) == "./" + file
    requires world.sourceExists && world.dockerBuildOk && world.convert.returnCode == 0
    ensures trace == [DockerBuild(LocalTag(name), ".", file),
                      RunCommand(ConvertCommand(Path(false, [name + ".sif"]), DaemonRef(name)))]
    ensures r == Success(Path(false, [name + ".sif"]))
  {
    ParseFileName(file);
    SplitNoSep(".", '/');
    assert Parse(".") == Cwd;
    var sif := name + ".sif";
    assert sif != "." && '/' !in sif by {
      assert |sif| > 1;
      assert sif[|name|..] == ".sif";
    }
    ParseFileName(sif);
    assert ArchivePath(Cwd, name) == Path(false, [sif]);
    assert Show(Parent(Path(false, [file]))) == ".";
    DaemonConversionTokenizes(name);
    trace, r := Build(Some(name), source, Some(Parse(".")), world);
  }

  /** The conversion command tokenises exactly when the source reference does, as long
      as the archive path has no quotes or backslashes: a source with an unclosed quote
      aborts the build without starting a process. */
  lemma ConvertTokenizes(target: Path, source: string)
    requires Unquoted(Show(target))
    ensures Tokenizes(ConvertCommand(target, source)) <==> Tokenizes(source)
  {
    var head := "apptainer build " + Show(target) + " ";
    assert ConvertCommand(target, source) == head + source;
    UnquotedAppend("apptainer build ", Show(target));
    UnquotedAppend("apptainer build " + Show(target), " ");
    TokenizesAfter(head, source);
  }

  /** The login command tokenises exactly when the password closes its quotes, as long
      as the username and the registry domain have no quotes or backslashes. */
  lemma LoginTokenizes(c: Credentials, domain: string)
    requires Unquoted(c.username) && Unquoted(domain)
    ensures Tokenizes(LoginCommand(c, domain)) <==> QuotesClosed(c.password)
  {
    var head := "apptainer " + "registry login --username=" + c.username + " --password=";
    var tail := " oras://" + domain;
    LoginCommandPieces(c, domain);
    LiteralsUnquoted();
    UnquotedAppend("apptainer ", "registry login --username=");
    UnquotedAppend("apptainer " + "registry login --username=", c.username);
    UnquotedAppend("apptainer " + "registry login --username=" + c.username, " --password=");
    UnquotedAppend(" oras://", domain);
    TokenizesBetween(head, c.password, tail);
  }

  /** The login command line: its fixed text, the username and the domain around the password. */
  lemma LoginCommandPieces(c: Credentials, domain: string)
    ensures LoginCommand(c, domain) ==
            ("apptainer " + "registry login --username=" + c.username + " --password=") + c.password +
            (" oras://" + domain)
  {
  }

  /** The fixed text of the login command line has no quotes or backslashes. */
  lemma LiteralsUnquoted()
    ensures Unquoted("apptainer ") && Unquoted("registry login --username=")
    ensures Unquoted(" --password=") && Unquoted(" oras://")
  {
  }

  /** Converting the freshly built local image of a name without quotes or backslashes
      into `<name>.sif` is a command line that tokenises. */
  lemma DaemonConversionTokenizes(name: string)
    requires Unquoted(name)
    ensures Tokenizes(ConvertCommand(Path(false, [name + ".sif"]), DaemonRef(name)))
  {
    var sif := name + ".sif";
    assert Show(Path(false, [sif])) == sif;
    UnquotedAppend(name, ".sif");
    UnquotedAppend("local/", name);
    UnquotedAppend("local/" + name, ":latest");
    UnquotedAppend("docker-daemon://", LocalTag(name));
    UnquotedScan(DaemonRef(name));
    ConvertTokenizes(Path(false, [sif]), DaemonRef(name));
  }
}
