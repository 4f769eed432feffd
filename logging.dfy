/** The part of the logging library that the middleware relies on: a logger is
    the map of fields it attaches to every line, and `AddFields` returns a new
    logger whose fields are the old ones overridden by the new ones. */
module Logging {

  /** A logger field value: the middleware logs strings and an integer status. */
  datatype FieldValue = Text(text: string) | Number(number: int)

  /** The names this package logs under. */
  const ReservedNames: set<string> := {
    "request_id", "server_name", "progname", "user_agent", "user_ip",
    "retailer_api_key", "api_key", "auth_token", "organization_id",
    "method", "path", "status", "tracer"}

  /** A logger field is keyed by its name, a string. A key is one of the names
      this package logs under, or any other name a caller may have added. */
  datatype FieldTag =
    | RequestIdField | ServerNameField | PrognameField | UserAgentField | UserIpField
    | RetailerApiKeyField | ApiKeyField | AuthTokenField | OrganizationIdField
    | MethodField | PathField | StatusField | TracerField
    | OtherField(name: string)
  {
    /** The name as it appears on a log line. */
    function Name(): string {
      match this
      case RequestIdField => "request_id"
      case ServerNameField => "server_name"
      case PrognameField => "progname"
      case UserAgentField => "user_agent"
      case UserIpField => "user_ip"
      case RetailerApiKeyField => "retailer_api_key"
      case ApiKeyField => "api_key"
      case AuthTokenField => "auth_token"
      case OrganizationIdField => "organization_id"
      case MethodField => "method"
      case PathField => "path"
      case StatusField => "status"
      case TracerField => "tracer"
      case OtherField(name) => name
    }

    /** `OtherField` never spells a name that has a constructor of its own. */
    predicate Canonical() {
      OtherField? ==> name !in ReservedNames
    }
  }

  /** Field keys in canonical form: one key per name. */
  type FieldName = k: FieldTag | k.Canonical() witness RequestIdField

  /** The key under which a field of this name is stored. */
  function KeyOf(name: string): (k: FieldName)
    ensures k.Name() == name
  {
    match name
    case "request_id" => RequestIdField
    case "server_name" => ServerNameField
    case "progname" => PrognameField
    case "user_agent" => UserAgentField
    case "user_ip" => UserIpField
    case "retailer_api_key" => RetailerApiKeyField
    case "api_key" => ApiKeyField
    case "auth_token" => AuthTokenField
    case "organization_id" => OrganizationIdField
    case "method" => MethodField
    case "path" => PathField
    case "status" => StatusField
    case "tracer" => TracerField
    case _ => OtherField(name)
  }

  /** Every key is the key of its own name. */
  lemma KeyOfName(k: FieldName)
    ensures KeyOf(k.Name()) == k
  {
  }

  /** Keys and names correspond one to one, as the string keys of the
      library's field map do. */
  lemma NameInjective(a: FieldName, b: FieldName)
    requires a.Name() == b.Name()
    ensures a == b
  {
    KeyOfName(a);
    KeyOfName(b);
  }

  type Fields = map<FieldName, FieldValue>

  datatype Logger = Logger(fields: Fields) {

    /** A logger carrying these fields plus `extra`; on a clash `extra` wins. */
    function AddFields(extra: Fields): Logger {
      Logger(fields + extra)
    }
  }

  /** A fresh logger with no fields of its own. */
  function NewLogger(): Logger {
    Logger(map[])
  }

  /** One line written at info level: its message and the logger's fields at that moment. */
  datatype LogEntry = Info(message: string, fields: Fields)
}
