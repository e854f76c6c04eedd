/**
 * The connection state and error descriptions of the iOS data service
 * (apps/ios/BreathTracker/BreathTracker/Services/BreathingDataService.swift).
 */
module DataService {
  import opened Wrappers
  import opened Text

  datatype ConnectionState = Disconnected | Connecting | Connected | Error(message: string)

  /** isConnected: only the connected state, never an error. */
  predicate IsConnected(s: ConnectionState)
    ensures IsConnected(s) <==> s.Connected?
    ensures s.Error? || s.Connecting? || s.Disconnected? ==> !IsConnected(s)
  {
    s == Connected
  }

  /** statusText */
  function StatusText(s: ConnectionState): (t: string)
    ensures s.Error? ==> t == "Error: " + s.message
  {
    match s
    case Disconnected => "Disconnected"
    case Connecting => "Connecting..."
    case Connected => "Connected"
    case Error(message) => "Error: " + message
  }

  /** The text of an error ends with its message, and different states never share a text. */
  lemma StatusTextDistinguishes(a: ConnectionState, b: ConnectionState)
    ensures a.Error? ==> StatusText(a)[|StatusText(a)| - |a.message|..] == a.message
    ensures StatusText(a) == StatusText(b) <==> a == b
  {
    if a.Error? && b.Error? && StatusText(a) == StatusText(b) {
      assert a.message == StatusText(a)[7..] == StatusText(b)[7..] == b.message;
    }
    if a.Error? && !b.Error? {
      assert StatusText(a)[..7] == "Error: ";
      assert StatusText(b)[0] != 'E' || |StatusText(b)| < 7;
    }
    if b.Error? && !a.Error? {
      assert StatusText(b)[..7] == "Error: ";
      assert StatusText(a)[0] != 'E' || |StatusText(a)| < 7;
    }
  }

  /** The service counts as connected exactly when its status reads "Connected"; an error state never does. */
  lemma ConnectedIffText(s: ConnectionState)
    ensures IsConnected(s) <==> StatusText(s) == "Connected"
    ensures s.Error? ==> !IsConnected(s)
  {
    StatusTextDistinguishes(s, Connected);
  }

  /** BreathingDataError; wrapped errors carry their localizedDescription. */
  datatype BreathingDataError = InvalidUrl | NetworkError(cause: string) | DecodingError(cause: string) | ServerError(code: int) | NoData

  const ServerErrorPrefix: string := "Server error with code: "

  /** errorDescription: every case has one. */
  function ErrorDescription(e: BreathingDataError): (d: Option<string>)
    ensures d.Some?
    ensures e.ServerError? ==> d.value == ServerErrorPrefix + IntToString(e.code)
  {
    match e
    case InvalidUrl => Some("Invalid API URL configuration")
    case NetworkError(cause) => Some("Network error: " + cause)
    case DecodingError(cause) => Some("Failed to decode response: " + cause)
    case ServerError(code) => Some(ServerErrorPrefix + IntToString(code))
    case NoData => Some("No data received from server")
  }

  /** The status code can be read back from a server error's description. */
  lemma ServerErrorCodeReadBack(code: int)
    ensures Atoi(ErrorDescription(ServerError(code)).value[|ServerErrorPrefix|..]) == code
  {
    var d := ErrorDescription(ServerError(code)).value;
    assert d[|ServerErrorPrefix|..] == IntToString(code);
    AtoiOfIntToString(code);
  }

  /** invalidURL and noData have fixed descriptions. */
  lemma FixedDescriptions()
    ensures ErrorDescription(InvalidUrl) == Some("Invalid API URL configuration")
    ensures ErrorDescription(NoData) == Some("No data received from server")
  {
  }
}
