# GleSYS machine driver, modelled in Dafny

A model of the GleSYS driver for docker-machine (`glesys.go`): the driver record and the
operations the host tool calls on it. The driver validates its create options, fills in a
random root password, builds the create-server request for the GleSYS API, records the new
server's ID and IP address, maps GleSYS server states to machine states, and turns
kill/stop/restart/start/remove into single API requests.

Files:

- `wrappers.dfy` — `Option` and `Result`, for the driver's error returns.
- `libmachine.dfy` — the host tool's machine-state enumeration and option bag, and how a
  flag's value falls back to its default, and the default SSH key path of a machine.
- `glesys_api.dfy` — the values exchanged with the GleSYS API client: create parameters,
  server details, requests, and the client credentials a request is sent with.
- `glesys.dfy` — module `Glesys`: the constants, the environment-variable naming of flags,
  the password generator, the pure specification functions (`ApplyFlags`, `CreateParams`,
  `CanonicalState`, `StopType`) with their lemmas, and the class `Driver`.

How remote calls are modelled: each driver operation returns the list of API requests it
issues (`issued`, each a `Call` of client and request) and takes the outcome of that request
as a parameter (`outcome`, `details`, `response`). Reading the SSH public key (after
generating a key pair if none was given) is one parameter `publicKey`, either the key or the
I/O error; the existence check on a given key file is the parameter `keyFileExists`; the
random source is the sequence `draws` of indices in [0, 36), one per password character.

`Driver.SetConfigFromFlags` is proved against the pure function `ApplyFlags` on a value copy
of the driver's fields (`Config`, obtained by `Driver.Snapshot`); the promised properties are
lemmas about `ApplyFlags`. Its field assignments are grouped into three helper methods
(`ReadSizes`, `ReadPlacement`, `ReadAccess`) only to keep each proof small. They assign the
same fields as the source, grouped by kind rather than in the source's order; the order
cannot be observed, because reading an option has no effect and nothing is checked between
the assignments.

Three behaviours of the code worth stating:

- A missing project or API key is not free of side effects: `Project` and `APIKey` are
  assigned before either is checked, and a bad platform is reported after every option has
  been recorded (`ConfigRequiresProject`, `ConfigRequiresAPIKey`, `ConfigOutcome`).
- There is no wait-until-unlocked polling loop in `Create`: the first address of the create
  response's IP list is recorded directly.
- A root password is generated whenever none is set, on every platform, KVM included.

## Model

| member | source | states |
|---|---|---|
| `Glesys.ReplaceDashes` | glesys.go:77 | same length; each '-' becomes '_', every other character is kept |
| `Glesys.ToUpper` | glesys.go:77 | same length; each lower-case ASCII letter becomes its upper-case letter, every other character is kept |
| `Glesys.StringFlagToEnvVar` | glesys.go:76-78 | same length as the flag; every '-' becomes '_', every lower-case ASCII letter its upper-case letter, everything else unchanged; the result has no '-' and no lower-case ASCII letter |
| `Glesys.EnvVarIdempotent` | glesys.go:76-78 | an environment-variable name maps to itself |
| `Glesys.EnvVarExamples` | glesys_test.go:63-66 | "glesys-api-key" gives "GLESYS_API_KEY" and "glesys-project" gives "GLESYS_PROJECT" |
| `Glesys.GeneratePassword` | glesys.go:314-323 | exactly `passlen` characters, character i is the alphabet entry at the i-th random index, so every character is one of a-z0-9 |
| `Glesys.Message` | glesys.go:202-240 | an I/O failure is reported with its own text; a failed create's message ends with the API's whole message |
| `Glesys.MissingProjectMessage` | glesys_test.go:35-47 | a missing project reads "glesys driver requires the --glesys-project option" |
| `Glesys.MissingAPIKeyMessage` | glesys_test.go:49-61 | a missing API key reads "glesys driver require the --glesys-api-key option" |
| `Glesys.CreateFailedKeepsCause` | glesys.go:236-240 | a failed create is reported as "Failed to create machine: " followed by the API's whole message |
| `Glesys.CreateFlagDefaults` | glesys.go:81-147 | the default of every create flag: Falkenberg, the Ubuntu template, VMware, docker-machine, 2048, 2, 20, 100, and "" for root password, campaign code and key path; project and API key have none |
| `LibMachine.WithDefaults` | glesys.go:81-147 | an option the user gave reads as given; any other reads as the flag table's default |
| `Glesys.ApplyFlags` | glesys.go:152-181 | the only errors are MissingProject, MissingAPIKey and InvalidPlatform of the recorded platform; name, store path, IP address and server ID are never touched |
| `Glesys.ConfigRequiresProject` | glesys.go:152-158 | with no project the result is MissingProject whatever the API key; only Project and APIKey were assigned, every other field is unchanged |
| `Glesys.ConfigRequiresAPIKey` | glesys.go:152-162 | with a project and no API key the result is MissingAPIKey; only Project and APIKey were assigned |
| `Glesys.ConfigOutcome` | glesys.go:152-181 | success iff project and API key are non-empty and the platform is VMware or KVM; then every field equals its option; a bad platform is InvalidPlatform after all fields were assigned; name, store path, IP and server ID never change |
| `Glesys.ApplyFlagsIdempotent` | glesys.go:152-181 | configuring twice from the same options gives the same fields and the same verdict as configuring once |
| `Glesys.DefaultsAccepted` | glesys.go:81-147 | with a project and API key given and no platform, the flag defaults (VMware, 2 CPUs, 2048 MB, 20 GB, 100 Mbit/s, Falkenberg, the Ubuntu template, docker-machine user) give a valid configuration |
| `Glesys.CreateParams` | glesys.go:213-234 | IPv4 and IPv6 are "any", hostname is the machine name, sizes and placement come from the driver; on KVM exactly one user (the KVM user, the one key, no password) and no password or key fields; otherwise no users, the root password and the key |
| `Glesys.CredentialsExclusive` | glesys.go:226-234 | once a root password is set, whatever the key read, the request carries credentials in exactly one of the two forms |
| `Glesys.CanonicalState` | glesys.go:295-304 | Running iff the server state is "running", Stopped iff "stopped", None for "locked" and every other string |
| `Glesys.StopType` | glesys.go:307-353 | "hard" exactly for Kill, "soft" exactly for Stop, "reboot" exactly for Restart |
| `Glesys.StopTypesDistinct` | glesys.go:307-353 | Kill sends "hard", Stop "soft" and Restart "reboot"; different ways of stopping send different stop types, always one of the three |
| `Glesys.SSHUserHoldsKey` | glesys.go:264-271 | the SSH user is the account the create request put the public key on: the KVM user on KVM, root otherwise |
| `Glesys.Driver.GetClient` | glesys.go:355-357 | every request goes out with the driver's project and API key and the user agent "docker-machine-driver-glesys/1.1.0" |
| `Glesys.Driver.constructor` | glesys.go:66-74 | a new driver knows only its machine name and store path; every other field is empty or zero |
| `Glesys.Driver.SetConfigFromFlags` | glesys.go:152-181 | the new fields and the error are exactly those of `ApplyFlags` on the old fields |
| `Glesys.Driver.ReadSizes` | glesys.go:164-171 | bandwidth, CPU, memory and storage are read from their options, nothing else changes |
| `Glesys.Driver.ReadPlacement` | glesys.go:165-173 | campaign code, data center, template and platform are read from their options, nothing else changes |
| `Glesys.Driver.ReadAccess` | glesys.go:169-174 | root password, SSH key path and KVM user name are read from their options, nothing else changes |
| `Glesys.Driver.PreCreateCheck` | glesys.go:184-196 | an empty root password is replaced by a 64-character password over a-z0-9, a set one is kept; the password is non-empty afterwards; a given key path that does not exist is KeyFileMissing |
| `Glesys.Driver.Create` | glesys.go:199-246 | an empty key path becomes the host tool's default key path for the machine, even when the key then cannot be read, and a given one is kept; no request when the key cannot be read; otherwise exactly one create request with `CreateParams`; on success the server ID and the first IP are recorded, on any error neither changes |
| `Glesys.Driver.GetSSHPort` | glesys.go:259-261 | always port 22 and no error |
| `Glesys.Driver.GetSSHUsername` | glesys.go:264-271 | the KVM user name when the platform is "KVM", "root" otherwise |
| `Glesys.Driver.GetState` | glesys.go:289-305 | one details request for the server ID; a failed call is Error with the API's error; otherwise the canonical state and no error; Error exactly when an error is returned |
| `Glesys.Driver.Kill` | glesys.go:308-312 | one stop request of type "hard" for the server ID; the API's error is returned as is |
| `Glesys.Driver.Restart` | glesys.go:337-341 | one stop request of type "reboot" for the server ID; the API's error is returned as is |
| `Glesys.Driver.Start` | glesys.go:344-346 | one start request for the server ID; the API's error is returned as is |
| `Glesys.Driver.Stop` | glesys.go:349-353 | one stop request of type "soft" for the server ID; the API's error is returned as is |
| `Glesys.Driver.Remove` | glesys.go:326-334 | without a server ID no request and success; otherwise one destroy request with KeepIP false and the API's error as is |

## Left out

- The GleSYS API client (`getClient` and the `Servers` calls): requests are values and their outcomes are parameters; the client library's `WithUser` is taken to append one user to the request.
- SSH key generation, reading the `.pub` file and the existence check on the key file: file-system I/O, given to the model as parameters.
- The time-seeded random generator: its draws are a parameter; only the length and alphabet of the password are modelled, not its distribution.
- `GetURL` and `GetSSHHostname`: they rest on the host library's running check and IP lookup and on host:port formatting, which are not part of this model.
- `GetCreateFlags`: only the defaults of its flag table are modelled (`CreateFlagDefaults`); names, usage texts and environment-variable bindings of the flags are not.
- `DriverName` (the constant "glesys") and logging.
- Plugin registration in cmd/docker-machine-driver-glesys/main.go.
- `LibMachine.DefaultSSHKeyPath`: the host library's `GetSSHKeyPath` is not part of this model; its default path is written out as `<store>/machines/<machine>/id_rsa`, without the path cleaning of Go's `filepath.Join`.
- `Glesys.Driver.Create`: requires a non-empty IP list in a successful response; with an empty list the source panics, which is not modelled.
- `Glesys.ToUpper`, `Glesys.StringFlagToEnvVar`: upper-case ASCII letters only; Go's `strings.ToUpper` also maps non-ASCII letters. Flag names are ASCII.
- `Glesys.Message`: the key-file error quotes the path with plain quotes, without Go's `%q` escaping.
- Go's 64-bit `int` for sizes: sizes are only copied, never computed with, so they are unbounded integers here.
