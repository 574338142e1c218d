/** The comments of config/src/comments.rs:19-281, one entry per key. Their type says what Comments needs of them: each is
    made of blank lines and lines starting with '#', between two line breaks. */
module CommentTable {
  import opened Comments

  const BLANK: CommentLine := ""

  const RULER: CommentLine := "####################" + "#####################"

  function Note(text: string): CommentLine
    requires '\n' !in text
  {
    "### " + text
  }

  /** A setting that is switched off. */
  function Off(text: string): CommentLine
    requires '\n' !in text
  {
    "#" + text
  }

  function WalletSectionComment(): Comment {
    [RULER,
     Note("WALLET CONFIGURATION              " + "###"),
     RULER]
  }

  function ApiListenInterfaceComment(): Comment {
    [Note("host IP for wallet listener, " + "change to \"0.0.0.0\" to receive " + "epics")]
  }

  const API_LISTEN_PORT_1 := Note("path of TLS certificate file, " + "self-signed certificates are not " + "supported")

  const API_LISTEN_PORT_2 := Off("tls_certificate_file = \"\"")

  const API_LISTEN_PORT_3 := Note("private key for the TLS " + "certificate")

  const API_LISTEN_PORT_4 := Off("tls_certificate_key = \"\"")

  const API_LISTEN_PORT_5 := Note("port for wallet listener")

  function ApiListenPortComment(): Comment {
    [API_LISTEN_PORT_1, API_LISTEN_PORT_2, API_LISTEN_PORT_3, API_LISTEN_PORT_4, BLANK, API_LISTEN_PORT_5]
  }

  function OwnerApiListenPortComment(): Comment {
    [Note("port for wallet owner api")]
  }

  const API_SECRET_PATH_1 := Off("owner_api_interface = 127.0.0.1")

  const API_SECRET_PATH_2 := Note("path of the secret token used by " + "the API to authenticate the calls")

  const API_SECRET_PATH_3 := Note("comment it to disable basic auth")

  function ApiSecretPathComment(): Comment {
    [BLANK, API_SECRET_PATH_1, BLANK, API_SECRET_PATH_2, API_SECRET_PATH_3]
  }

  function CheckNodeApiHttpAddrComment(): Comment {
    [Note("where the wallet should find a " + "running node")]
  }

  function NodeApiSecretPathComment(): Comment {
    [Note("location of the node api secret " + "for basic auth on the Epic API")]
  }

  const OWNER_API_INCLUDE_FOREIGN_1 := Note("include the foreign API endpoints " + "on the same port as the owner")

  const OWNER_API_INCLUDE_FOREIGN_2 := Note("API. Useful for networking " + "environments like AWS ECS that " + "make")

  const OWNER_API_INCLUDE_FOREIGN_3 := Note("it difficult to access multiple " + "ports on a single service.")

  function OwnerApiIncludeForeignComment(): Comment {
    [OWNER_API_INCLUDE_FOREIGN_1, OWNER_API_INCLUDE_FOREIGN_2, OWNER_API_INCLUDE_FOREIGN_3]
  }

  function DataFileDirComment(): Comment {
    [Note("where to find wallet files (seed, " + "data, etc)")]
  }

  const NO_COMMIT_CACHE_1 := Note("If true, don't store calculated " + "commits in the database")

  const NO_COMMIT_CACHE_2 := Note("better privacy, but at a " + "performance cost of having to")

  const NO_COMMIT_CACHE_3 := Note("re-calculate commits every time " + "they're used")

  function NoCommitCacheComment(): Comment {
    [NO_COMMIT_CACHE_1, NO_COMMIT_CACHE_2, NO_COMMIT_CACHE_3]
  }

  function DarkBackgroundColorSchemeComment(): Comment {
    [Note("Whether to use the black " + "background color scheme for " + "command line")]
  }

  const KEYBASE_NOTIFY_TTL_1 := Note("The exploding lifetime for " + "keybase notification on coins " + "received.")

  const KEYBASE_NOTIFY_TTL_2 := Note("Unit: Minute. Default value 1440 " + "minutes for one day.")

  const KEYBASE_NOTIFY_TTL_3 := Note("Refer to " + "https://keybase.io/blog/" + "keybase-exploding-messages " + "for detail.")

  const KEYBASE_NOTIFY_TTL_4 := Note("To disable this notification, set " + "it as 0.")

  function KeybaseNotifyTtlComment(): Comment {
    [KEYBASE_NOTIFY_TTL_1, KEYBASE_NOTIFY_TTL_2, KEYBASE_NOTIFY_TTL_3, KEYBASE_NOTIFY_TTL_4]
  }

  function LoggingSectionComment(): Comment {
    [RULER,
     Note("LOGGING CONFIGURATION             " + "###"),
     RULER]
  }

  function LogToStdoutComment(): Comment {
    [Note("whether to log to stdout")]
  }

  function StdoutLogLevelComment(): Comment {
    [Note("log level for stdout: Error, " + "Warning, Info, Debug, Trace")]
  }

  function LogToFileComment(): Comment {
    [Note("whether to log to a file")]
  }

  function FileLogLevelComment(): Comment {
    [Note("log level for file: Error, " + "Warning, Info, Debug, Trace")]
  }

  function LogFilePathComment(): Comment {
    [Note("log file path")]
  }

  function LogFileAppendComment(): Comment {
    [Note("whether to append to the log file " + "(true), or replace it on every " + "run (false)")]
  }

  function LogMaxSizeComment(): Comment {
    [Note("maximum log file size in bytes " + "before performing log rotation"),
     Note("comment it to disable log rotation")]
  }

  function TorSectionComment(): Comment {
    [RULER,
     Note("TOR CONFIGURATION (Experimental)  " + "###"),
     RULER]
  }

  function UseTorListenerComment(): Comment {
    [Note("Whether to start tor listener on " + "listener startup (default true)")]
  }

  function SocksProxyAddrComment(): Comment {
    [Note("Address of the running TOR " + "(SOCKS) server")]
  }

  function LaterSocksProxyAddrComment(): Comment {
    [Note("TOR (SOCKS) proxy server address")]
  }

  function SendConfigDirComment(): Comment {
    [Note("Directory to output TOR " + "configuration to when sending")]
  }

  function EpicboxSectionComment(): Comment {
    [RULER,
     Note(" EPICBOX CONFIGURATION            " + "###"),
     RULER]
  }

  function EpicboxDomainComment(): Comment {
    [Note("Domain of the epicbox server to " + "connect")]
  }

  function EpicboxPortComment(): Comment {
    [Note("Port of the domain of the epicbox " + "server to connect")]
  }

  function EpicboxProtocolUnsecureComment(): Comment {
    [Note("Whether to allow unsecure " + "connections without SSL (default " + "false)")]
  }

  function EpicboxAddressIndexComment(): Comment {
    [Note("Index of the epicbox address " + "(default 0)")]
  }

  /** `comments`: the map is filled entry by entry; "socks_proxy_addr" is entered twice, and the second text stays. */
  function Table(): map<string, Comment> {
    map[
      "[wallet]" := WalletSectionComment(),
      "api_listen_interface" := ApiListenInterfaceComment(),
      "api_listen_port" := ApiListenPortComment(),
      "owner_api_listen_port" := OwnerApiListenPortComment(),
      "api_secret_path" := ApiSecretPathComment(),
      "check_node_api_http_addr" := CheckNodeApiHttpAddrComment(),
      "node_api_secret_path" := NodeApiSecretPathComment(),
      "owner_api_include_foreign" := OwnerApiIncludeForeignComment(),
      "data_file_dir" := DataFileDirComment(),
      "no_commit_cache" := NoCommitCacheComment(),
      "dark_background_color_scheme" := DarkBackgroundColorSchemeComment(),
      "keybase_notify_ttl" := KeybaseNotifyTtlComment(),
      "[logging]" := LoggingSectionComment(),
      "log_to_stdout" := LogToStdoutComment(),
      "stdout_log_level" := StdoutLogLevelComment(),
      "log_to_file" := LogToFileComment(),
      "file_log_level" := FileLogLevelComment(),
      "log_file_path" := LogFilePathComment(),
      "log_file_append" := LogFileAppendComment(),
      "log_max_size" := LogMaxSizeComment(),
      "[tor]" := TorSectionComment(),
      "use_tor_listener" := UseTorListenerComment(),
      "socks_proxy_addr" := SocksProxyAddrComment(),
      "socks_proxy_addr" := LaterSocksProxyAddrComment(),
      "send_config_dir" := SendConfigDirComment(),
      "[epicbox]" := EpicboxSectionComment(),
      "epicbox_domain" := EpicboxDomainComment(),
      "epicbox_port" := EpicboxPortComment(),
      "epicbox_protocol_unsecure" := EpicboxProtocolUnsecureComment(),
      "epicbox_address_index" := EpicboxAddressIndexComment()
    ]
  }

  lemma KeysAreKeys()
    ensures "NOT_FOUND" !in Table()
  {
    var key := "NOT_FOUND";
    assert |key| == 9 && key[0] == 'N';
  }

  /** A line that is neither a section header nor an assignment is left without a comment. */
  lemma KeylessLinesGetNoComment(line: string)
    requires !('[' in line && ']' in line) && '=' !in line
    ensures CommentFor(line, Table()) == "" && Heading(line, Table()) == []
  {
    KeysAreKeys();
  }
}
