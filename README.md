# sandbox: apptainer build and publish, modelled in Dafny

This project models the decision logic of `sandbox`, a command-line tool that
turns container images into Apptainer `.sif` archives and publishes them to an
AWS ECR Public registry. Two parts of the tool are modelled:

- **The process executor** (`run_command_logged`). It tokenises a command line
  with `shlex.split`, which raises on an unclosed quote or a trailing
  backslash. It then launches the command and polls the child. While the child
  runs, it drains the child's standard error line by line and remembers the
  most recent non-empty line. A non-zero exit code becomes the error
  `Subprocess <program> error: <line>`.
- **The two pipelines of the `apptainer` sub-command.**
  - `build` picks the image name, the source (by default `./Dockerfile`) and
    the output directory. When the source is an existing path, it first builds
    a local docker image `local/<name>:latest` and converts from
    `docker-daemon://local/<name>:latest`. Then it runs
    `apptainer build <dir>/<name>.sif <source>`.
  - `publish` derives `<stem>:<tag>` from the archive path; the tag is
    `latest` unless one is given. It fetches and unpacks the registry token and
    insists on exactly one registry. It creates the repository only when the
    catalog says it does not exist. Then it logs in with apptainer and pushes to
    `oras://<registry uri>/<stem>:<tag>`.

What the outside world answers is an input; the malformed API responses listed
under "Left out" are the exception. For the executor, the child
process is a `Child`: the results of its successive `readline()` calls on
standard error (an empty string is end of stream), the number of `poll()` calls
that still find it running, and its exit code. For the pipelines, a
`BuildWorld` or `PublishWorld` supplies the other answers:
- whether the source path exists, whether the docker build succeeds, and the
  generated name;
- whether the ECR Public client is created;
- the answer of the token call: refused, undecodable, or the decoded text;
- whether the registry listing succeeds, and the registry list;
- the catalog answer and whether creation succeeds;
- the `Child` of every apptainer command. Each pipeline returns
the ordered trace of its side-effecting calls (`Action`) together with a
success value or a failure. `RunCommand` in a trace records a call of the
executor, whether or not its command line tokenised and a process started. A
failure is an `Abort` with its subject line, or an error that propagates as
raised.

Files:
- `wrappers.dfy` holds `Option`, `Result` and `Outcome`.
- `text.dfy` models Python's `str.split` with one separator, `join`, and
  `shlex.split`: when it raises, and the argument vector of a command line
  without quotes.
- `paths.dfy` models the part of `pathlib` the pipelines use.
- `tools.dfy` holds the executor.
- `apptainer.dfy` holds the pipelines.

`Build` and the executor state their properties in their own postconditions.
`Publish` is proved equal to the reference function `Publishing`, which is
built from the stages `Resolving` (catalog lookup and creation) and
`Uploading` (login and push). The properties of publishing are lemmas about
these functions.

Notes on the source's behaviour:
- The executor returns nothing on success.
- `publish` fetches the authorization token before it checks the registry
  count. A publish with two registries has therefore already fetched a token
  when it aborts.
- `str(Path() / "demo.sif")` is `demo.sif`: pathlib drops the `.` component.
- Only `build` wraps its errors into an abort ("Build failed"). In `publish`,
  only the registry count aborts ("Publish failed"). The following all
  propagate as raised errors, without a stage label: a failure to create the
  client, a failed token call, a token that does not decode or unpack, a failed
  registry listing, a failed catalog lookup or creation, and a failed login or
  push.
- The configured `aws_ecr_public_registry` setting is never read. The registry
  comes from `describe_registries`.

## Model

| member | source | states |
|---|---|---|
| `Tools.RunCommandLogged` | sandbox/tools.py:13-31 | A command line that `shlex.split` rejects starts nothing and fails with the tokenisation error. Otherwise the command succeeds exactly when there is a program to start and the exit code is 0, whatever standard error held. A non-zero exit fails with the first token as program and, as line, the most recent non-empty line the drains read. A child that has already exited at the first poll reports "". An empty token list cannot be launched. |
| `Tools.DrainEnd` | sandbox/tools.py:23-29 | A drain ends inside the results: at or after its start and at most at their end. |
| `Tools.DrainStopsAtFirstEof` | sandbox/tools.py:23-29 | A drain reads something unless the results are exhausted. Every line before its last read is non-empty. Unless it ran off the end, its last read is the empty one (end of stream). |
| `Tools.Consumed` | sandbox/tools.py:22-29 | After any number of drains, the reads consumed stay within the listed results. |
| `Tools.LastLineIsMostRecent` | sandbox/tools.py:21-29 | `LastLine`, the remembered line, is "" exactly when every line read was empty. Otherwise it is one of the lines read, and every line read after it was empty. |
| `Tools.LastLineAppend` | sandbox/tools.py:25-26 | Later reads replace the remembered line only if one of them is non-empty. An earlier non-empty line is never lost to empty reads. |
| `Tools.LastLineStep` | sandbox/tools.py:24-26 | One more read changes the remembered line exactly when the line read is non-empty. |
| `Tools.DiagnosticIsStderrLine` | sandbox/tools.py:21-30 | `Diagnostic`, the line reported for a child, is "" or one of the lines the child wrote to standard error. It is "" when the child had already exited at the first poll. |
| `Tools.ProcessError.Message` | sandbox/tools.py:31 | The error text starts with "Subprocess " followed by the program, and ends with the last diagnostic line. |
| `Text.SplitFields` | sandbox/subapps/apptainer.py:107 | `Split` (`str.split`) gives one field more than there are separators, and no field contains the separator. |
| `Text.JoinSplit` | sandbox/subapps/apptainer.py:107 | Joining the fields of a split with the separator gives back the string. |
| `Text.SplitJoin` | sandbox/subapps/apptainer.py:123 | Splitting a join of separator-free fields gives back the fields. |
| `Text.SplitHead` | sandbox/subapps/apptainer.py:123 | The first field of a split is the string up to its first separator. |
| `Text.WordsHead` | sandbox/tools.py:16-20 | In `Words`, the argument vector of a command line, the first token of a line that starts with a blank-free word and a blank is that word. |
| `Text.ScanAppend` | sandbox/tools.py:16 | The `shlex.split` scanner reads a concatenation piece by piece: scanning `a + b` is scanning `b` from where `a` left off. |
| `Text.TokenizesAfter` | sandbox/tools.py:16 | After text without quotes or backslashes, the rest of a command line alone decides whether `shlex.split` raises. |
| `Text.TokenizesBetween` | sandbox/tools.py:16 | Between non-empty text without quotes or backslashes on both sides, a piece leaves the line tokenisable exactly when it closes its quotes. A trailing backslash escapes the following blank and does not make it fail. |
| `Text.UnclosedQuote` | sandbox/tools.py:16 | A single quote that is never closed makes `shlex.split` raise. |
| `Paths.Parse` | sandbox/subapps/apptainer.py:37 | `Path(s)` keeps only non-empty components that are not "." and contain no '/'. It is absolute exactly when `s` starts with '/'. |
| `Paths.ParseShow` | sandbox/subapps/apptainer.py:67-68 | `Show` renders a path into a command line, and parsing the rendered text gives back the same path. |
| `Paths.ParentDivName` | sandbox/subapps/apptainer.py:51-52 | Every path is `Parent(p) / Name(p)`: `.parent` and `.name` split a path and `Div` (`/`) joins it again. For `Path()` and `/` the name is "" and joining "" changes nothing. |
| `Paths.StemBeforeLastDot` | sandbox/subapps/apptainer.py:85 | `Stem` (`p.stem`) is a prefix of the name. When it is shorter, it stops at the name's last dot, which is neither the first nor the last character. When it is the whole name, the name ends with a dot or has no dot after its first character. |
| `Paths.SifPath` | sandbox/subapps/apptainer.py:67 | For a non-empty image name without '/', the archive `dir / "<name>.sif"` lies directly in `dir`, is named `<name>.sif`, and has stem `name`. So publishing a built archive uses the build's image name again (line 85). A name with a '/' is outside this lemma: `a/b` gives `dir/a/b.sif`, whose stem is `b`. |
| `Paths.ParseFileName` | sandbox/subapps/apptainer.py:37 | `Path("<file>")` and `Path("./<file>")` are both the one-component relative path `<file>`. |
| `Apptainer.Build` | sandbox/subapps/apptainer.py:21-72 | `ImageName`: the supplied name verbatim, or else the generated one. `ImageSource`: the supplied source, or else `./Dockerfile`. `OutputDir`: the supplied directory, or else `Path()`. A docker build of tag `local/<name>:latest`, context the source's parent and dockerfile the source's file name happens exactly when the source exists. Its failure aborts with "Build failed" before any apptainer command. Otherwise exactly one `apptainer build <dir>/<name>.sif <source>` is issued. `ConvertSource`: its source is `docker-daemon://local/<name>:latest` when the path exists and the unchanged reference when it does not. A failure aborts with "Build failed" and the conversion message. Its cause is the tokenisation error when the line does not tokenise, and otherwise the `apptainer` process error with its last diagnostic line. Success, exactly when the conversion tokenises and exits with 0, yields the archive path. |
| `Apptainer.BuildFromDockerfile` | sandbox/subapps/apptainer.py:24-69 | Building `./<file>` as `name` into the current directory makes two calls. `./Dockerfile` is used when no source is given. The first call builds the docker image `local/<name>:latest` from context `.` and `<file>`. The second converts from `docker-daemon://local/<name>:latest` into `<name>.sif`. The result is `<name>.sif`. |
| `Apptainer.ConvertCommand` | sandbox/subapps/apptainer.py:68-69 | The first token of the conversion command, which names the program in its errors, is `apptainer`. |
| `Apptainer.LoginCommand` | sandbox/subapps/apptainer.py:136-137 | The first token of the login command is `apptainer`. |
| `Apptainer.PushCommand` | sandbox/subapps/apptainer.py:141-142 | The first token of the push command is `apptainer`. |
| `Apptainer.ApptainerProgram` | sandbox/tools.py:16-20 | The first token of any `apptainer …` command line is `apptainer`. |
| `Apptainer.ConvertTokenizes` | sandbox/subapps/apptainer.py:67-69 | For an archive path without quotes or backslashes, the conversion command tokenises exactly when the source reference does. A source with an unclosed quote therefore aborts the build without starting a process. |
| `Apptainer.LoginTokenizes` | sandbox/subapps/apptainer.py:136-137 | For a username and domain without quotes or backslashes, the login command tokenises exactly when the password closes its quotes. |
| `Apptainer.DaemonConversionTokenizes` | sandbox/subapps/apptainer.py:56-69 | For an image name without quotes or backslashes, converting the local image into `<name>.sif` is a command line that tokenises. |
| `Apptainer.SplitToken` | sandbox/subapps/apptainer.py:107 | The decoded token unpacks exactly when it holds one colon. The username and password then contain no colon, and joined with ':' they rebuild the token. |
| `Apptainer.PasswordWithColonFails` | sandbox/subapps/apptainer.py:107 | A password that contains ':' cannot be unpacked, whatever the username. |
| `Apptainer.RegistryDomain` | sandbox/subapps/apptainer.py:123 | The domain is a prefix of the registry URI with no '/'. It is the whole URI or stops just before the URI's first '/'. |
| `Apptainer.Publish` | sandbox/subapps/apptainer.py:78-146 | The calls made and the result are those of the reference `Publishing`, for the tag given or else `latest` (`ImageTag`). The properties of `Publishing` are the lemmas below. |
| `Apptainer.Upload` | sandbox/subapps/apptainer.py:135-142 | Logging in and pushing make the calls and give the result of the reference `Uploading`. |
| `Apptainer.TokenFetchedFirst` | sandbox/subapps/apptainer.py:96-105 | When the ECR Public client is created, every publish starts by fetching the authorization token in region us-east-1 with the configured key id and secret key. When creating the client fails, nothing is called and the error propagates. |
| `Apptainer.FetchErrorsPropagate` | sandbox/subapps/apptainer.py:104-110 | A failed token call, or a token that is not base64 of UTF-8 text, raises right after the token fetch. A failed registry listing raises right after the listing. Nothing later is asked of the registry. |
| `Apptainer.TokenMustUnpack` | sandbox/subapps/apptainer.py:105-107 | If the decoded token does not split into exactly two fields, the publish stops after the token fetch with a raised error. `TokenFields(count)` is the model's stand-in for Python's unpacking `ValueError`, whose message gives the count only when there is one field. |
| `Apptainer.OneRegistryRequired` | sandbox/subapps/apptainer.py:110-119 | With any registry count but one, the publish aborts with "Publish failed" right after listing the registries. No catalog lookup, creation, login or push happens. |
| `Apptainer.CreatedOnlyWhenNotFound` | sandbox/subapps/apptainer.py:125-133 | A publish makes exactly one repository creation, for the image's stem, when the lookup answers not-found. In every other case it makes none. |
| `Apptainer.ResolvingCreations` | sandbox/subapps/apptainer.py:125-133 | The repository steps (`Resolving`) add one creation of the stem's repository on not-found and none otherwise. |
| `Apptainer.UploadingCreatesNothing` | sandbox/subapps/apptainer.py:135-142 | Logging in and pushing (`Uploading`) create no repository. |
| `Apptainer.UploadingAppends` | sandbox/subapps/apptainer.py:135-142 | Login and push add the login command, then the push command only if the login succeeded. |
| `Apptainer.CatalogErrorPropagates` | sandbox/subapps/apptainer.py:125-130 | A lookup failure other than not-found propagates right after the lookup, with no creation and no command. |
| `Apptainer.LoginThenPush` | sandbox/subapps/apptainer.py:135-142 | No command runs unless the publish reaches the login. The login to `oras://<domain>` comes right before the push to `oras://<uri>/<stem>:<tag>`. A failed login is the last call. A failed command raises the executor's error: the tokenisation error, or the `apptainer` process error with its last diagnostic line. |
| `Apptainer.PublishSucceeds` | sandbox/subapps/apptainer.py:135-146 | A publish succeeds exactly when it reaches the login and both commands tokenise and exit with 0. It then yields `oras://<registry uri>/<stem>:<tag>`. |
| `Apptainer.PublishToNewRepository` | sandbox/subapps/apptainer.py:81-142 | With the client, the token call and the listing succeeding, a token that unpacks, one registry, a not-found catalog answer and succeeding commands, the calls are exactly: token, registries, lookup, creation of the stem's repository, login, push. The result is the push URL. |

## Left out

- Logging (`logger.debug`) and the final terminal messages are not modelled.
  The success value of each pipeline stands for the path or URL its final
  message reports.
- The docker client, boto3, `friendlywords`, `Path.exists`, `subprocess`
  and `base64.b64decode` are external. Their answers are inputs. Token decoding
  (base64, then UTF-8) is not modelled: its answer is an input, either the
  decoded text or `Undecodable` (a `binascii.Error` or `UnicodeDecodeError`).
- A failure to reach the docker daemon is not told apart from a failed image
  build. Both are `dockerBuildOk = false`, and the trace still lists the
  attempted build.
- Missing keys in the API responses (`KeyError`) are not modelled.
- `create_repository` is not given an architecture or OS, as in the source.
- `Text.Words`: `shlex.split` is modelled in two parts. `Tokenizes` decides
  exactly when it raises (an unclosed quote or a trailing backslash). `Words`
  gives the argument vector by splitting on blanks and dropping empty fields.
  For a line with quotes or backslashes that still tokenises, quote removal,
  escapes, and tabs or newlines as separators are not modelled. Only the
  first token is used, and for every command line the pipelines issue it is
  `apptainer`.
- `Popen` failing to start an existing argument vector (program not found) is
  not modelled. Only an empty argument vector is a launch failure.
- The executor's child is a finite script. A child that has closed standard
  error but keeps running for finitely many polls is inside the model: every
  poll past the drained lines reads end of stream. Only a child that never
  exits is outside it; the source would poll for ever. Timing and blocking
  reads are not modelled. Standard output is piped and never read, so it is
  not an input.
- `Child.stderr` admits lines after an empty read. A real pipe returns
  nothing after end of stream, so such children do not occur; the model
  covers them too, with the next drain reading on.
- Decoding standard-error bytes as UTF-8 is not modelled: lines are strings.
- `pathlib` is modelled for POSIX paths only. A leading `//` anchor is not
  treated specially.
- `Apptainer.ConvertMessage`: `{image_source=}` renders the reference with
  Python's `repr`. The model quotes it with single quotes and does not model
  the escaping `repr` applies to quotes, backslashes and unprintable
  characters.
- `Abort.handle_errors` and `handle_abort` are not part of this model. An
  abort is modelled as its subject, its message and its cause.
- `run_command` (sandbox/tools.py:7-10) is not modelled. It is only mentioned in
  a comment and never called.
- The CLI wiring (`sandbox/main.py`, `sandbox/context.py`), the settings file
  (`sandbox/config.py`) and the cache directory (`sandbox/cache.py`) are not
  part of this model. Settings are taken as an already-valid value.
