/**
 * The GleSYS driver for docker-machine: option validation, the environment-variable
 * naming of flags, the root-password generator, the create-server request, the mapping
 * of GleSYS server states to machine states, and the lifecycle operations, each of which
 * issues at most one API request.
 */
module Glesys {
  import opened Wrappers
  import LibMachine
  import opened GlesysApi

  // Default values of the create flags.
  const DefaultBandwidth := 100
  const DefaultCPU := 2
  const DefaultDataCenter := "Falkenberg"
  const DefaultMemory := 2048
  const DefaultStorage := 20
  const DefaultTemplate := "Ubuntu 20.04 LTS 64-bit"
  const DefaultPlatform := "VMware"
  const DefaultUsernameKVM := "docker-machine"

  // Names of the create flags.
  const APIKeyFlag := "glesys-api-key"
  const BandwidthFlag := "glesys-bandwidth"
  const CampaignCodeFlag := "glesys-campaign-code"
  const CPUFlag := "glesys-cpu"
  const DataCenterFlag := "glesys-data-center"
  const MemoryFlag := "glesys-memory"
  const ProjectFlag := "glesys-project"
  const RootPasswordFlag := "glesys-root-password"
  const SSHKeyPathFlag := "glesys-ssh-key-path"
  const StorageFlag := "glesys-storage"
  const TemplateFlag := "glesys-template"
  const PlatformFlag := "glesys-platform"
  const UsernameKVMFlag := "glesys-username-kvm"

  const UserAgent := "docker-machine-driver-glesys/1.1.0"
  const SSHPort := 22
  /** The length of a generated root password. */
  const PasswordLength := 64
  /** The characters a generated root password is made of. */
  const PasswordChars := "abcdefghijklmnopqrstuvwxyz0123456789"

  /**
   * The default column of the create-flag table, as the host tool sees it. Project and
   * API key have no default; a string flag without a value defaults to "".
   */
  function CreateFlagDefaults(): (d: LibMachine.DriverOptions)
    ensures ProjectFlag !in d.strings && APIKeyFlag !in d.strings
    ensures && d.String(DataCenterFlag) == "Falkenberg"
            && d.String(TemplateFlag) == "Ubuntu 20.04 LTS 64-bit"
            && d.String(PlatformFlag) == "VMware"
            && d.String(UsernameKVMFlag) == "docker-machine"
    ensures d.String(RootPasswordFlag) == "" && d.String(CampaignCodeFlag) == "" && d.String(SSHKeyPathFlag) == ""
    ensures d.Int(MemoryFlag) == 2048 && d.Int(CPUFlag) == 2 && d.Int(StorageFlag) == 20 && d.Int(BandwidthFlag) == 100
  {
    LibMachine.DriverOptions(
      map[DataCenterFlag := DefaultDataCenter, RootPasswordFlag := "", TemplateFlag := DefaultTemplate,
          CampaignCodeFlag := "", SSHKeyPathFlag := "", PlatformFlag := DefaultPlatform,
          UsernameKVMFlag := DefaultUsernameKVM],
      map[MemoryFlag := DefaultMemory, CPUFlag := DefaultCPU, StorageFlag := DefaultStorage,
          BandwidthFlag := DefaultBandwidth])
  }

  // ---------------------------------------------------------------------------------
  // Environment-variable names of flags

  predicate IsLowerAscii(c: char) {
    'a' <= c <= 'z'
  }

  function UpperAscii(c: char): char {
    if IsLowerAscii(c) then (c as int - 32) as char else c
  }

  /** Replaces every '-' by '_'. */
  function ReplaceDashes(s: string): (r: string)
    ensures |r| == |s|
    ensures forall i :: 0 <= i < |s| ==> r[i] == if s[i] == '-' then '_' else s[i]
  {
    seq(|s|, i requires 0 <= i < |s| => if s[i] == '-' then '_' else s[i])
  }

  /** Upper-cases every (ASCII) letter. */
  function ToUpper(s: string): (r: string)
    ensures |r| == |s|
    ensures forall i :: 0 <= i < |s| ==> r[i] == UpperAscii(s[i])
  {
    seq(|s|, i requires 0 <= i < |s| => UpperAscii(s[i]))
  }

  /**
   * The environment variable that may stand in for a flag: same length, every '-'
   * becomes '_', every lower-case letter its upper-case letter, everything else stays.
   */
  function StringFlagToEnvVar(s: string): (r: string)
    ensures |r| == |s|
    ensures forall i :: 0 <= i < |s| && s[i] == '-' ==> r[i] == '_'
    ensures forall i :: 0 <= i < |s| && IsLowerAscii(s[i]) ==> 'A' <= r[i] <= 'Z' && r[i] as int == s[i] as int - 32
    ensures forall i :: 0 <= i < |s| && s[i] != '-' && !IsLowerAscii(s[i]) ==> r[i] == s[i]
    ensures '-' !in r
    ensures forall i :: 0 <= i < |r| ==> !IsLowerAscii(r[i])
  {
    ToUpper(ReplaceDashes(s))
  }

  /** An environment-variable name is its own environment-variable name. */
  lemma EnvVarIdempotent(s: string)
    ensures StringFlagToEnvVar(StringFlagToEnvVar(s)) == StringFlagToEnvVar(s)
  {
  }

  /** The two flags that carry an environment variable. */
  lemma EnvVarExamples()
    ensures StringFlagToEnvVar(APIKeyFlag) == "GLESYS_API_KEY"
    ensures StringFlagToEnvVar(ProjectFlag) == "GLESYS_PROJECT"
  {
  }

  // ---------------------------------------------------------------------------------
  // Root-password generator

  /**
   * A password of `passlen` characters; character i is the alphabet entry at the i-th
   * index drawn from the random source, and every index drawn lies in [0, 36).
   */
  method GeneratePassword(passlen: nat, draws: seq<int>) returns (password: string)
    requires |draws| >= passlen
    requires forall i :: 0 <= i < |draws| ==> 0 <= draws[i] < |PasswordChars|
    ensures |password| == passlen
    ensures forall i :: 0 <= i < passlen ==> password[i] == PasswordChars[draws[i]]
    ensures forall c :: c in password ==> c in PasswordChars
  {
    var result := new char[passlen];
    for i := 0 to passlen
      invariant forall k :: 0 <= k < i ==> result[k] == PasswordChars[draws[k]]
    {
      result[i] := PasswordChars[draws[i]];
    }
    password := result[..];
  }

  // ---------------------------------------------------------------------------------
  // Errors

  datatype DriverError =
    | MissingProject
    | MissingAPIKey
    | InvalidPlatform(platform: string)
    | KeyFileMissing(path: string)
    | KeyUnavailable(reason: string)
    | CreateFailed(cause: ApiError)

  /**
   * The error text the driver reports. An error that comes from elsewhere keeps its
   * text: an I/O failure is passed on as it is, and a failed create ends with the API's
   * whole message.
   */
  function Message(e: DriverError): (m: string)
    ensures e.KeyUnavailable? ==> m == e.reason
    ensures e.CreateFailed? ==>
      |m| > |e.cause.Message| && m[|m| - |e.cause.Message|..] == e.cause.Message
  {
    match e
    case MissingProject => "glesys driver requires the --" + ProjectFlag + " option"
    case MissingAPIKey => "glesys driver require the --" + APIKeyFlag + " option"
    case InvalidPlatform(p) => "platform " + p + " is not valid, supported platforms are VMware and KVM"
    case KeyFileMissing(path) => "SSH key file does not exist: \"" + path + "\""
    case KeyUnavailable(reason) => reason
    case CreateFailed(cause) => CreateFailedPrefix + cause.Message
  }

  const CreateFailedPrefix := "Failed to create machine: "

  /** The texts the driver's tests expect for a missing project and a missing API key. */
  lemma MissingProjectMessage()
    ensures Message(MissingProject) == "glesys driver requires the --glesys-project option"
  {
  }

  lemma MissingAPIKeyMessage()
    ensures Message(MissingAPIKey) == "glesys driver require the --glesys-api-key option"
  {
  }

  /** A failed create wraps the API's message and keeps it whole. */
  lemma CreateFailedKeepsCause(cause: ApiError)
    ensures |Message(CreateFailed(cause))| == |CreateFailedPrefix| + |cause.Message|
    ensures Message(CreateFailed(cause))[..|CreateFailedPrefix|] == CreateFailedPrefix
    ensures Message(CreateFailed(cause))[|CreateFailedPrefix|..] == cause.Message
  {
  }

  // ---------------------------------------------------------------------------------
  // Configuration

  /** Every field of a driver, as a value. */
  datatype Config = Config(
    MachineName: string,
    StorePath: string,
    IPAddress: string,
    SSHKeyPath: string,
    APIKey: string,
    Bandwidth: int,
    CampaignCode: string,
    CPU: int,
    DataCenter: string,
    Memory: int,
    Project: string,
    RootPassword: string,
    ServerID: string,
    Storage: int,
    Template: string,
    Platform: string,
    UsernameKVM: string)

  predicate ValidPlatform(platform: string) {
    platform == "VMware" || platform == "KVM"
  }

  /**
   * What SetConfigFromFlags does to a driver whose fields are `c`: the new fields and the
   * error, if any. Project and API key are read first and checked in that order; only
   * then are the other options read, and the platform is checked last.
   */
  function ApplyFlags(c: Config, opts: LibMachine.DriverOptions): (r: (Config, Option<DriverError>))
    ensures r.1.Some? ==> r.1 == Some(MissingProject) || r.1 == Some(MissingAPIKey) || r.1 == Some(InvalidPlatform(r.0.Platform))
    ensures r.0.MachineName == c.MachineName && r.0.StorePath == c.StorePath
    ensures r.0.IPAddress == c.IPAddress && r.0.ServerID == c.ServerID
  {
    var c := ReadCredentials(c, opts);
    if c.Project == "" then (c, Some(MissingProject))
    else if c.APIKey == "" then (c, Some(MissingAPIKey))
    else
      var c := ReadSettings(c, opts);
      if !ValidPlatform(c.Platform) then (c, Some(InvalidPlatform(c.Platform))) else (c, None)
  }

  /** The first step of ApplyFlags: project and API key are recorded. */
  function ReadCredentials(c: Config, opts: LibMachine.DriverOptions): Config {
    c.(Project := opts.String(ProjectFlag), APIKey := opts.String(APIKeyFlag))
  }

  /** The second step of ApplyFlags: every other option is recorded. */
  function ReadSettings(c: Config, opts: LibMachine.DriverOptions): Config {
    c.(
      Bandwidth := opts.Int(BandwidthFlag),
      CampaignCode := opts.String(CampaignCodeFlag),
      CPU := opts.Int(CPUFlag),
      DataCenter := opts.String(DataCenterFlag),
      Memory := opts.Int(MemoryFlag),
      RootPassword := opts.String(RootPasswordFlag),
      SSHKeyPath := opts.String(SSHKeyPathFlag),
      Storage := opts.Int(StorageFlag),
      Template := opts.String(TemplateFlag),
      Platform := opts.String(PlatformFlag),
      UsernameKVM := opts.String(UsernameKVMFlag))
  }

  /**
   * Without a project the configuration fails with MissingProject, whatever the API key;
   * only project and API key have been recorded, every other field is as before.
   */
  lemma ConfigRequiresProject(c: Config, opts: LibMachine.DriverOptions)
    requires opts.String(ProjectFlag) == ""
    ensures ApplyFlags(c, opts) == (c.(Project := "", APIKey := opts.String(APIKeyFlag)), Some(MissingProject))
  {
  }

  /**
   * With a project but no API key the configuration fails with MissingAPIKey; only
   * project and API key have been recorded, every other field is as before.
   */
  lemma ConfigRequiresAPIKey(c: Config, opts: LibMachine.DriverOptions)
    requires opts.String(ProjectFlag) != "" && opts.String(APIKeyFlag) == ""
    ensures ApplyFlags(c, opts) == (c.(Project := opts.String(ProjectFlag), APIKey := ""), Some(MissingAPIKey))
  {
  }

  /**
   * Configuration succeeds exactly when project and API key are given and the platform is
   * VMware or KVM. Once project and API key are given, every field is read from its
   * option, and a bad platform is reported only after that, so it too is recorded. The
   * machine's name, store path, IP address and server ID are never touched.
   */
  lemma ConfigOutcome(c: Config, opts: LibMachine.DriverOptions)
    ensures var (r, err) := ApplyFlags(c, opts);
      && (err.None? <==> opts.String(ProjectFlag) != "" && opts.String(APIKeyFlag) != "" && ValidPlatform(opts.String(PlatformFlag)))
      && r.Project == opts.String(ProjectFlag) && r.APIKey == opts.String(APIKeyFlag)
      && r.MachineName == c.MachineName && r.StorePath == c.StorePath
      && r.IPAddress == c.IPAddress && r.ServerID == c.ServerID
    ensures opts.String(ProjectFlag) != "" && opts.String(APIKeyFlag) != "" ==>
      var (r, err) := ApplyFlags(c, opts);
      && (!ValidPlatform(opts.String(PlatformFlag)) ==> err == Some(InvalidPlatform(opts.String(PlatformFlag))))
      && r.Bandwidth == opts.Int(BandwidthFlag)
      && r.CampaignCode == opts.String(CampaignCodeFlag)
      && r.CPU == opts.Int(CPUFlag)
      && r.DataCenter == opts.String(DataCenterFlag)
      && r.Memory == opts.Int(MemoryFlag)
      && r.RootPassword == opts.String(RootPasswordFlag)
      && r.SSHKeyPath == opts.String(SSHKeyPathFlag)
      && r.Storage == opts.Int(StorageFlag)
      && r.Template == opts.String(TemplateFlag)
      && r.Platform == opts.String(PlatformFlag)
      && r.UsernameKVM == opts.String(UsernameKVMFlag)
  {
  }

  /** Configuring twice from the same options gives the same driver and the same verdict. */
  lemma ApplyFlagsIdempotent(c: Config, opts: LibMachine.DriverOptions)
    ensures ApplyFlags(ApplyFlags(c, opts).0, opts) == ApplyFlags(c, opts)
  {
  }

  /**
   * A user who gives a project and an API key and no platform gets a valid VMware
   * configuration, with the flag table's defaults for every size they leave out.
   */
  lemma DefaultsAccepted(c: Config, given: LibMachine.DriverOptions)
    requires ProjectFlag in given.strings && given.strings[ProjectFlag] != ""
    requires APIKeyFlag in given.strings && given.strings[APIKeyFlag] != ""
    requires PlatformFlag !in given.strings
    ensures var r := ApplyFlags(c, LibMachine.WithDefaults(given, CreateFlagDefaults()));
      && r.1 == None
      && r.0.Platform == DefaultPlatform
      && (CPUFlag !in given.ints ==> r.0.CPU == DefaultCPU)
      && (MemoryFlag !in given.ints ==> r.0.Memory == DefaultMemory)
      && (StorageFlag !in given.ints ==> r.0.Storage == DefaultStorage)
      && (BandwidthFlag !in given.ints ==> r.0.Bandwidth == DefaultBandwidth)
      && (DataCenterFlag !in given.strings ==> r.0.DataCenter == DefaultDataCenter)
      && (TemplateFlag !in given.strings ==> r.0.Template == DefaultTemplate)
      && (UsernameKVMFlag !in given.strings ==> r.0.UsernameKVM == DefaultUsernameKVM)
  {
  }

  // ---------------------------------------------------------------------------------
  // The create-server request

  /**
   * The create-server parameters for a driver configured as `c`, given the public key
   * read from disk. A KVM server gets one user, the KVM user, holding the key and no
   * password; any other server gets the root password and the key directly.
   */
  function CreateParams(c: Config, publicKey: string): (p: CreateServerParams)
    ensures p.IPv4 == "any" && p.IPv6 == "any" && p.Hostname == c.MachineName
    ensures && p.Bandwidth == c.Bandwidth && p.CampaignCode == c.CampaignCode && p.CPU == c.CPU
            && p.DataCenter == c.DataCenter && p.Memory == c.Memory && p.Platform == c.Platform
            && p.Storage == c.Storage && p.Template == c.Template
    ensures c.Platform == "KVM" ==>
      p.Users == [User(c.UsernameKVM, [publicKey], "")] && p.Password == "" && p.PublicKey == ""
    ensures c.Platform != "KVM" ==>
      p.Users == [] && p.Password == c.RootPassword && p.PublicKey == publicKey
  {
    var params := CreateServerParams(
      Bandwidth := c.Bandwidth,
      CampaignCode := c.CampaignCode,
      CPU := c.CPU,
      DataCenter := c.DataCenter,
      Hostname := c.MachineName,
      IPv4 := "any",
      IPv6 := "any",
      Memory := c.Memory,
      Password := "",
      Platform := c.Platform,
      PublicKey := "",
      Storage := c.Storage,
      Template := c.Template,
      Users := []);
    if c.Platform == "KVM" then
      params.WithUser(c.UsernameKVM, [publicKey], "")
    else
      params.(Password := c.RootPassword, PublicKey := publicKey)
  }

  /**
   * Once a root password is set, a request carries its credentials in
   * exactly one of the two forms: a user with keys, or a root password with a key.
   */
  lemma CredentialsExclusive(c: Config, publicKey: string)
    requires c.RootPassword != ""
    ensures var p := CreateParams(c, publicKey);
      (|p.Users| == 1 && publicKey in p.Users[0].PublicKeys) != (p.Password != "" && p.PublicKey == publicKey)
  {
  }

  // ---------------------------------------------------------------------------------
  // Machine states and stop types

  /** The machine state for a GleSYS server state; "locked" and unknown states are None. */
  function CanonicalState(providerState: string): (s: LibMachine.State)
    ensures s == LibMachine.Running <==> providerState == "running"
    ensures s == LibMachine.Stopped <==> providerState == "stopped"
    ensures s == LibMachine.None <==> providerState != "running" && providerState != "stopped"
  {
    match providerState
    case "locked" => LibMachine.None
    case "running" => LibMachine.Running
    case "stopped" => LibMachine.Stopped
    case _ => LibMachine.None
  }

  /** The three ways of stopping a server. */
  datatype Halt = Kill | Stop | Restart

  /** The stop type sent for each way of stopping. */
  function StopType(h: Halt): (t: string)
    ensures t == "hard" <==> h == Kill
    ensures t == "soft" <==> h == Stop
    ensures t == "reboot" <==> h == Restart
  {
    match h
    case Kill => "hard"
    case Stop => "soft"
    case Restart => "reboot"
  }

  /** Kill, Stop and Restart send three different stop types: hard, soft and reboot. */
  lemma StopTypesDistinct(h1: Halt, h2: Halt)
    ensures StopType(h1) == StopType(h2) <==> h1 == h2
    ensures StopType(h1) in {"hard", "soft", "reboot"}
    ensures StopType(Kill) == "hard" && StopType(Stop) == "soft" && StopType(Restart) == "reboot"
  {
  }

  // ---------------------------------------------------------------------------------
  // The driver

  class Driver {
    var MachineName: string
    var StorePath: string
    var IPAddress: string
    var SSHKeyPath: string
    var APIKey: string
    var Bandwidth: int
    var CampaignCode: string
    var CPU: int
    var DataCenter: string
    var Memory: int
    var Project: string
    var RootPassword: string
    var ServerID: string
    var Storage: int
    var Template: string
    var Platform: string
    var UsernameKVM: string

    /** The driver's fields as a value. */
    function Snapshot(): Config
      reads this
    {
      Config(MachineName, StorePath, IPAddress, SSHKeyPath, APIKey, Bandwidth, CampaignCode, CPU,
             DataCenter, Memory, Project, RootPassword, ServerID, Storage, Template, Platform, UsernameKVM)
    }

    /** A driver for the named machine, with nothing else configured. */
    constructor (hostName: string, storePath: string)
      ensures Snapshot() == Config(hostName, storePath, "", "", "", 0, "", 0, "", 0, "", "", "", 0, "", "", "")
    {
      MachineName, StorePath := hostName, storePath;
      IPAddress, SSHKeyPath := "", "";
      APIKey, Bandwidth, CampaignCode, CPU, DataCenter, Memory := "", 0, "", 0, "", 0;
      Project, RootPassword, ServerID, Storage := "", "", "", 0;
      Template, Platform, UsernameKVM := "", "", "";
    }

    /** The client every request of this driver goes through. */
    function GetClient(): (client: Client)
      reads this
      ensures client.Project == Project && client.APIKey == APIKey
      ensures client.UserAgent == "docker-machine-driver-glesys/1.1.0"
    {
      Client(Project, APIKey, UserAgent)
    }

    /** Reads the options into the driver's fields, failing on the first missing or bad one. */
    method SetConfigFromFlags(opts: LibMachine.DriverOptions) returns (err: Option<DriverError>)
      modifies this`Project, this`APIKey
      modifies this`Bandwidth, this`CampaignCode, this`CPU, this`DataCenter, this`Memory, this`RootPassword
      modifies this`SSHKeyPath, this`Storage, this`Template, this`Platform, this`UsernameKVM
      ensures (Snapshot(), err) == ApplyFlags(old(Snapshot()), opts)
    {
      ghost var before := Snapshot();
      Project := opts.String(ProjectFlag);
      APIKey := opts.String(APIKeyFlag);
      ghost var credentials := Snapshot();
      assert credentials == ReadCredentials(before, opts);

      if Project == "" {
        err := Some(MissingProject);
      } else if APIKey == "" {
        err := Some(MissingAPIKey);
      } else {
        ReadSizes(opts);
        ReadPlacement(opts);
        ReadAccess(opts);
        assert Snapshot() == ReadSettings(credentials, opts);
        if Platform != "VMware" && Platform != "KVM" {
          err := Some(InvalidPlatform(Platform));
        } else {
          err := None;
        }
      }
    }

    /** The sizes SetConfigFromFlags reads once both credentials are known. */
    method ReadSizes(opts: LibMachine.DriverOptions)
      modifies this`Bandwidth, this`CPU, this`Memory, this`Storage
      ensures Snapshot() == old(Snapshot()).(
        Bandwidth := opts.Int(BandwidthFlag), CPU := opts.Int(CPUFlag),
        Memory := opts.Int(MemoryFlag), Storage := opts.Int(StorageFlag))
    {
      Bandwidth := opts.Int(BandwidthFlag);
      CPU := opts.Int(CPUFlag);
      Memory := opts.Int(MemoryFlag);
      Storage := opts.Int(StorageFlag);
    }

    /** The placement and image options SetConfigFromFlags reads once both credentials are known. */
    method ReadPlacement(opts: LibMachine.DriverOptions)
      modifies this`CampaignCode, this`DataCenter, this`Template, this`Platform
      ensures Snapshot() == old(Snapshot()).(
        CampaignCode := opts.String(CampaignCodeFlag), DataCenter := opts.String(DataCenterFlag),
        Template := opts.String(TemplateFlag), Platform := opts.String(PlatformFlag))
    {
      CampaignCode := opts.String(CampaignCodeFlag);
      DataCenter := opts.String(DataCenterFlag);
      Template := opts.String(TemplateFlag);
      Platform := opts.String(PlatformFlag);
    }

    /** The access options SetConfigFromFlags reads once both credentials are known. */
    method ReadAccess(opts: LibMachine.DriverOptions)
      modifies this`RootPassword, this`SSHKeyPath, this`UsernameKVM
      ensures Snapshot() == old(Snapshot()).(
        RootPassword := opts.String(RootPasswordFlag), SSHKeyPath := opts.String(SSHKeyPathFlag),
        UsernameKVM := opts.String(UsernameKVMFlag))
    {
      RootPassword := opts.String(RootPasswordFlag);
      SSHKeyPath := opts.String(SSHKeyPathFlag);
      UsernameKVM := opts.String(UsernameKVMFlag);
    }

    /**
     * Fills in a missing root password from the random source, then checks that a given
     * SSH key file exists (`keyFileExists` is the file system's answer). The password is
     * set even when the key check fails.
     */
    method PreCreateCheck(draws: seq<int>, keyFileExists: bool) returns (err: Option<DriverError>)
      requires RootPassword == "" ==> |draws| >= PasswordLength
      requires RootPassword == "" ==> forall i :: 0 <= i < |draws| ==> 0 <= draws[i] < |PasswordChars|
      modifies this`RootPassword
      ensures RootPassword != ""
      ensures old(RootPassword) != "" ==> RootPassword == old(RootPassword)
      ensures old(RootPassword) == "" ==>
        && |RootPassword| == PasswordLength
        && (forall i :: 0 <= i < PasswordLength ==> RootPassword[i] == PasswordChars[draws[i]])
        && (forall c :: c in RootPassword ==> c in PasswordChars)
      ensures err == if SSHKeyPath != "" && !keyFileExists then Some(KeyFileMissing(SSHKeyPath)) else None
    {
      if RootPassword == "" {
        RootPassword := GeneratePassword(PasswordLength, draws);
      }
      if SSHKeyPath != "" && !keyFileExists {
        return Some(KeyFileMissing(SSHKeyPath));
      }
      return None;
    }

    /**
     * Creates the server. `publicKey` is the key read from disk (or the I/O error that
     * stopped key generation or reading); `response` is the API's answer to the create
     * request. Before anything else the key path is resolved: a driver that names no key
     * takes the host tool's default path for this machine, and keeps it even when key
     * generation then fails. Only a successful create records the server's ID and first
     * IP address.
     */
    method Create(publicKey: Result<string, string>, response: Result<ServerDetails, ApiError>)
      returns (issued: seq<Call>, err: Option<DriverError>)
      requires response.Success? ==> |response.value.IPList| > 0
      modifies this`ServerID, this`IPAddress, this`SSHKeyPath
      ensures old(SSHKeyPath) == "" ==> SSHKeyPath == LibMachine.DefaultSSHKeyPath(StorePath, MachineName)
      ensures old(SSHKeyPath) != "" ==> SSHKeyPath == old(SSHKeyPath)
      ensures publicKey.Failure? ==>
        issued == [] && err == Some(KeyUnavailable(publicKey.error))
      ensures publicKey.Success? ==>
        issued == [Call(GetClient(), CreateServer(CreateParams(old(Snapshot()), publicKey.value)))]
      ensures publicKey.Success? && response.Failure? ==>
        err == Some(CreateFailed(response.error))
      ensures publicKey.Success? && response.Success? ==>
        && err == None
        && ServerID == response.value.ID
        && IPAddress == response.value.IPList[0].Address
      ensures err.Some? ==> ServerID == old(ServerID) && IPAddress == old(IPAddress)
    {
      if SSHKeyPath == "" {
        SSHKeyPath := LibMachine.DefaultSSHKeyPath(StorePath, MachineName);
      }
      if publicKey.Failure? {
        return [], Some(KeyUnavailable(publicKey.error));
      }
      var params := CreateParams(Snapshot(), publicKey.value);
      issued := [Call(GetClient(), CreateServer(params))];
      if response.Failure? {
        return issued, Some(CreateFailed(response.error));
      }
      ServerID := response.value.ID;
      IPAddress := response.value.IPList[0].Address;
      return issued, None;
    }

    /** The SSH port, always 22. */
    method GetSSHPort() returns (port: int, err: Option<DriverError>)
      ensures port == 22 && err == None
    {
      return SSHPort, None;
    }

    /** The SSH user: the KVM user on KVM, root on any other platform. */
    function GetSSHUsername(): (name: string)
      reads this
      ensures Platform == "KVM" ==> name == UsernameKVM
      ensures Platform != "KVM" ==> name == "root"
    {
      if Platform == "KVM" then UsernameKVM else "root"
    }

    /** Asks the API for the server's details and maps its state; a failed call is Error. */
    method GetState(details: Result<ServerDetails, ApiError>)
      returns (issued: seq<Call>, st: LibMachine.State, err: Option<ApiError>)
      ensures issued == [Call(GetClient(), GetDetails(ServerID))]
      ensures details.Failure? ==> st == LibMachine.Error && err == Some(details.error)
      ensures details.Success? ==> st == CanonicalState(details.value.State) && err == None
      ensures st == LibMachine.Error <==> err.Some?
    {
      issued := [Call(GetClient(), GetDetails(ServerID))];
      if details.Failure? {
        return issued, LibMachine.Error, Some(details.error);
      }
      st, err := CanonicalState(details.value.State), None;
    }

    /** Stops the server forcefully. */
    method Kill(outcome: Option<ApiError>) returns (issued: seq<Call>, err: Option<ApiError>)
      ensures issued == [Call(GetClient(), StopServer(ServerID, "hard"))] && err == outcome
    {
      issued := [Call(GetClient(), StopServer(ServerID, StopType(Halt.Kill)))];
      err := outcome;
    }

    /** Stops the server gracefully. */
    method Stop(outcome: Option<ApiError>) returns (issued: seq<Call>, err: Option<ApiError>)
      ensures issued == [Call(GetClient(), StopServer(ServerID, "soft"))] && err == outcome
    {
      issued := [Call(GetClient(), StopServer(ServerID, StopType(Halt.Stop)))];
      err := outcome;
    }

    /** Reboots the server. */
    method Restart(outcome: Option<ApiError>) returns (issued: seq<Call>, err: Option<ApiError>)
      ensures issued == [Call(GetClient(), StopServer(ServerID, "reboot"))] && err == outcome
    {
      issued := [Call(GetClient(), StopServer(ServerID, StopType(Halt.Restart)))];
      err := outcome;
    }

    /** Starts the server. */
    method Start(outcome: Option<ApiError>) returns (issued: seq<Call>, err: Option<ApiError>)
      ensures issued == [Call(GetClient(), StartServer(ServerID))] && err == outcome
    {
      issued := [Call(GetClient(), StartServer(ServerID))];
      err := outcome;
    }

    /**
     * Destroys the server without keeping its IP address. Without a server ID there is
     * nothing to destroy: no request is issued and the removal succeeds.
     */
    method Remove(outcome: Option<ApiError>) returns (issued: seq<Call>, err: Option<ApiError>)
      ensures ServerID == "" ==> issued == [] && err == None
      ensures ServerID != "" ==> issued == [Call(GetClient(), DestroyServer(ServerID, false))] && err == outcome
    {
      if ServerID == "" {
        return [], None;
      }
      issued := [Call(GetClient(), DestroyServer(ServerID, false))];
      err := outcome;
    }
  }

  /**
   * The user the host tool logs in as over SSH is the account the create request put the
   * public key on: the KVM user on KVM, root otherwise.
   */
  lemma SSHUserHoldsKey(d: Driver, publicKey: string)
    ensures var p := CreateParams(d.Snapshot(), publicKey);
      if d.Platform == "KVM" then
        p.Users[0].Username == d.GetSSHUsername() && publicKey in p.Users[0].PublicKeys
      else
        d.GetSSHUsername() == "root" && p.PublicKey == publicKey
  {
  }
}
