/**
 * The values the driver exchanges with the GleSYS API client library: the create-server
 * parameters it builds, the server details it reads back, and the requests it issues.
 * The client itself (HTTP transport, authentication) is not part of this model; each
 * request's outcome is an input to the driver operation that issues it.
 */
module GlesysApi {

  /** A user account to create on a KVM server, with the public keys it accepts. */
  datatype User = User(Username: string, PublicKeys: seq<string>, Password: string)

  /** The body of a create-server request. */
  datatype CreateServerParams = CreateServerParams(
    Bandwidth: int,
    CampaignCode: string,
    CPU: int,
    DataCenter: string,
    Hostname: string,
    IPv4: string,
    IPv6: string,
    Memory: int,
    Password: string,
    Platform: string,
    PublicKey: string,
    Storage: int,
    Template: string,
    Users: seq<User>)
  {
    /** The same parameters with one more user attached. */
    function WithUser(username: string, publicKeys: seq<string>, password: string): CreateServerParams {
      this.(Users := Users + [User(username, publicKeys, password)])
    }
  }

  datatype ServerIP = ServerIP(Address: string)

  /** What the API reports about one server (also the response to a create request). */
  datatype ServerDetails = ServerDetails(ID: string, State: string, IPList: seq<ServerIP>)

  /** A failed API call, with the message the client library reports. */
  datatype ApiError = ApiError(Message: string)

  /** The credentials and user agent a request is sent with. */
  datatype Client = Client(Project: string, APIKey: string, UserAgent: string)

  datatype Request =
    | CreateServer(params: CreateServerParams)
    | GetDetails(serverID: string)
    | StartServer(serverID: string)
    | StopServer(serverID: string, Type: string)
    | DestroyServer(serverID: string, KeepIP: bool)

  /** One request issued through one client. */
  datatype Call = Call(client: Client, request: Request)
}
