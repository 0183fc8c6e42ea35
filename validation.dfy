/** The start-up configuration check (internal/config/validation.go): the
    per-field validators, the ordered list of problems `Validate` collects,
    and its rendering. Whether a TCP port can be bound is a question for the
    operating system; it enters as the oracle `free`. */
module ConfigValidation {
  import opened Base

  /** One problem: the configuration key it concerns and a human message. */
  datatype ValidationError = ValidationError(field: string, message: string)

  /** The settings the check looks at. `bootstrapPeer` is part of the
      configuration but no rule checks it. */
  datatype Config = Config(apiKey: string, httpPort: int, p2pPort: int, agentName: string, bootstrapPeer: string)

  const ApiKeyRequired: string := "API key is required. Use --api-key flag or set P2P_API_KEY env var"
  const ApiKeyFormat: string := "Invalid API key format. OpenAI API keys start with 'sk-'"
  const ApiKeyShort: string := "API key appears to be too short. Please check your key"
  const NameRequired: string := "Agent name is required. Use --name flag to set it"
  const NameChars: string := "Agent name can only contain letters, numbers, dashes, and underscores"
  const NameShort: string := "Agent name must be at least 2 characters"
  const NameLong: string := "Agent name cannot exceed 32 characters"
  const PortRange: string := "Port must be between 1 and 65535"
  const PortPrivileged: string := "Port below 1024 requires elevated privileges. Use a port >= 1024"
  const PortsEqual: string := "HTTP port and P2P port cannot be the same"

  /** ASCII letters, digits, dash and underscore, and nothing else. */
  function IsValidNameChar(c: char): (b: bool)
    ensures b ==> CharWidth(c) == 1
  {
    ('a' <= c <= 'z') || ('A' <= c <= 'Z') || ('0' <= c <= '9') || c == '-' || c == '_'
  }

  /** Empty, then the "sk-" prefix, then a length of at least 40 bytes; the
      first failing rule is reported. */
  function ValidateAPIKey(key: string): (r: Option<ValidationError>)
    ensures r.None? <==> HasPrefix(key, "sk-") && Utf8Len(key) >= 40
    ensures r.Some? ==> r.value.field == "api_key"
    ensures key == "" ==> r == Some(ValidationError("api_key", ApiKeyRequired))
    ensures key != "" && !HasPrefix(key, "sk-") ==> r == Some(ValidationError("api_key", ApiKeyFormat))
    ensures HasPrefix(key, "sk-") && Utf8Len(key) < 40 ==> r == Some(ValidationError("api_key", ApiKeyShort))
  {
    if key == "" then Some(ValidationError("api_key", ApiKeyRequired))
    else if !HasPrefix(key, "sk-") then Some(ValidationError("api_key", ApiKeyFormat))
    else if Utf8Len(key) < 40 then Some(ValidationError("api_key", ApiKeyShort))
    else None
  }

  /** Empty, then the character set, then the length in bytes (2 to 32). The
      character test comes first, so an accepted name is ASCII and its byte
      length is its character count. */
  function ValidateAgentName(name: string): (r: Option<ValidationError>)
    ensures r.None? <==> (forall i :: 0 <= i < |name| ==> IsValidNameChar(name[i])) && 2 <= |name| <= 32
    ensures r.Some? ==> r.value.field == "agent_name"
    ensures name == "" ==> r == Some(ValidationError("agent_name", NameRequired))
    ensures name != "" && (exists i :: 0 <= i < |name| && !IsValidNameChar(name[i])) ==>
      r == Some(ValidationError("agent_name", NameChars))
    ensures (forall i :: 0 <= i < |name| ==> IsValidNameChar(name[i])) && |name| == 1 ==>
      r == Some(ValidationError("agent_name", NameShort))
    ensures (forall i :: 0 <= i < |name| ==> IsValidNameChar(name[i])) && |name| > 32 ==>
      r == Some(ValidationError("agent_name", NameLong))
  {
    if name == "" then Some(ValidationError("agent_name", NameRequired))
    else if exists i :: 0 <= i < |name| && !IsValidNameChar(name[i]) then Some(ValidationError("agent_name", NameChars))
    else
      AsciiUtf8Len(name);
      if Utf8Len(name) < 2 then Some(ValidationError("agent_name", NameShort))
      else if Utf8Len(name) > 32 then Some(ValidationError("agent_name", NameLong))
      else None
  }

  /** An accepted name is plain ASCII, so its byte length, which the code
      bounds, is also its number of characters. */
  lemma AcceptedNameIsAscii(name: string)
    requires ValidateAgentName(name).None?
    ensures IsAscii(name) && Utf8Len(name) == |name|
  {
    ValidCharsAreAscii(name);
    AsciiUtf8Len(name);
  }

  lemma ValidCharsAreAscii(name: string)
    requires forall i :: 0 <= i < |name| ==> IsValidNameChar(name[i])
    ensures IsAscii(name)
  {
  }

  /** The length rule counts bytes, not characters: a prefixed key of 39
      characters passes once one of them lies beyond ASCII. */
  lemma ApiKeyLengthInBytes(key: string)
    requires HasPrefix(key, "sk-") && |key| >= 39 && !IsAscii(key)
    ensures ValidateAPIKey(key).None?
  {
    NonAsciiUtf8Len(key);
  }

  /** Out of 1..65535 is a range error, 1..1023 a privilege error. */
  function ValidatePort(port: int, field: string): (r: Option<ValidationError>)
    ensures r.None? <==> 1024 <= port <= 65535
    ensures r.Some? ==> r.value.field == field
    ensures (port < 1 || port > 65535) ==> r == Some(ValidationError(field, PortRange))
    ensures 1 <= port < 1024 ==> r == Some(ValidationError(field, PortPrivileged))
  {
    if port < 1 || port > 65535 then Some(ValidationError(field, PortRange))
    else if port < 1024 then Some(ValidationError(field, PortPrivileged))
    else None
  }

  function InUseText(port: int): string {
    "Port " + IntToDecimal(port) + " is already in use"
  }

  /** The availability probe: `free` says whether the port can be bound. */
  function CheckPortAvailable(port: int, field: string, free: int -> bool): (r: Option<ValidationError>)
    ensures r.None? <==> free(port)
    ensures r.Some? ==> r.value == ValidationError(field, InUseText(port))
  {
    if free(port) then None else Some(ValidationError(field, InUseText(port)))
  }

  function ToSeq(e: Option<ValidationError>): (s: seq<ValidationError>)
    ensures e.None? ==> s == []
    ensures e.Some? ==> s == [e.value]
  {
    if e.Some? then [e.value] else []
  }

  /** The five static checks, in their fixed order. */
  function StaticReport(c: Config): seq<ValidationError> {
    ToSeq(ValidateAPIKey(c.apiKey)) + ToSeq(ValidateAgentName(c.agentName)) +
    ToSeq(ValidatePort(c.httpPort, "http_port")) + ToSeq(ValidatePort(c.p2pPort, "p2p_port")) +
    (if c.httpPort == c.p2pPort then [ValidationError("ports", PortsEqual)] else [])
  }

  /** Everything `Validate` reports: the static checks, then the two probes. */
  function Report(c: Config, free: int -> bool): seq<ValidationError> {
    StaticReport(c) +
    ToSeq(CheckPortAvailable(c.httpPort, "http_port", free)) +
    ToSeq(CheckPortAvailable(c.p2pPort, "p2p_port", free))
  }

  /** Collect every problem with the configuration, each validator adding at
      most one, in the order the checks run. */
  method Validate(c: Config, free: int -> bool) returns (errors: seq<ValidationError>)
    ensures errors == Report(c, free)
  {
    errors := [];
    var err := ValidateAPIKey(c.apiKey);
    if err.Some? {
      errors := errors + [err.value];
    }
    assert errors == ToSeq(ValidateAPIKey(c.apiKey));
    err := ValidateAgentName(c.agentName);
    if err.Some? {
      errors := errors + [err.value];
    }
    assert errors == ToSeq(ValidateAPIKey(c.apiKey)) + ToSeq(ValidateAgentName(c.agentName));
    err := ValidatePort(c.httpPort, "http_port");
    if err.Some? {
      errors := errors + [err.value];
    }
    ghost var upTo := ToSeq(ValidateAPIKey(c.apiKey)) + ToSeq(ValidateAgentName(c.agentName)) +
      ToSeq(ValidatePort(c.httpPort, "http_port"));
    assert errors == upTo;
    err := ValidatePort(c.p2pPort, "p2p_port");
    if err.Some? {
      errors := errors + [err.value];
    }
    assert errors == upTo + ToSeq(ValidatePort(c.p2pPort, "p2p_port"));
    if c.httpPort == c.p2pPort {
      errors := errors + [ValidationError("ports", PortsEqual)];
    }
    assert errors == StaticReport(c);
    err := CheckPortAvailable(c.httpPort, "http_port", free);
    if err.Some? {
      errors := errors + [err.value];
    }
    assert errors == StaticReport(c) + ToSeq(CheckPortAvailable(c.httpPort, "http_port", free));
    err := CheckPortAvailable(c.p2pPort, "p2p_port", free);
    if err.Some? {
      errors := errors + [err.value];
    }
  }

  /** Position of a field in the order the static checks run. */
  function FieldRank(field: string): nat {
    if field == "api_key" then 0
    else if field == "agent_name" then 1
    else if field == "http_port" then 2
    else if field == "p2p_port" then 3
    else 4
  }

  /** The static part names each field at most once, in the fixed order
      api_key, agent_name, http_port, p2p_port, ports. */
  lemma StaticReportOrdered(c: Config)
    ensures |StaticReport(c)| <= 5
    ensures forall i, j :: 0 <= i < j < |StaticReport(c)| ==>
      FieldRank(StaticReport(c)[i].field) < FieldRank(StaticReport(c)[j].field)
  {
    FieldRanks();
    var a := ToSeq(ValidateAPIKey(c.apiKey));
    var b := ToSeq(ValidateAgentName(c.agentName));
    var h := ToSeq(ValidatePort(c.httpPort, "http_port"));
    var p := ToSeq(ValidatePort(c.p2pPort, "p2p_port"));
    var q: seq<ValidationError> := if c.httpPort == c.p2pPort then [ValidationError("ports", PortsEqual)] else [];
    var s := StaticReport(c);
    assert s == a + b + h + p + q;
    assert forall k :: 0 <= k < |a| ==> FieldRank(a[k].field) == 0;
    assert forall k :: 0 <= k < |b| ==> FieldRank(b[k].field) == 1;
    assert forall k :: 0 <= k < |h| ==> FieldRank(h[k].field) == 2;
    assert forall k :: 0 <= k < |p| ==> FieldRank(p[k].field) == 3;
    assert forall k :: 0 <= k < |q| ==> FieldRank(q[k].field) == 4;
    ConcatRanks(a, b, h, p, q);
  }

  /** Five pieces of at most one error each, of ranks 0 to 4, joined in
      order, have strictly increasing ranks. */
  lemma ConcatRanks(a: seq<ValidationError>, b: seq<ValidationError>, h: seq<ValidationError>,
                    p: seq<ValidationError>, q: seq<ValidationError>)
    requires |a| <= 1 && |b| <= 1 && |h| <= 1 && |p| <= 1 && |q| <= 1
    requires forall k :: 0 <= k < |a| ==> FieldRank(a[k].field) == 0
    requires forall k :: 0 <= k < |b| ==> FieldRank(b[k].field) == 1
    requires forall k :: 0 <= k < |h| ==> FieldRank(h[k].field) == 2
    requires forall k :: 0 <= k < |p| ==> FieldRank(p[k].field) == 3
    requires forall k :: 0 <= k < |q| ==> FieldRank(q[k].field) == 4
    ensures var s := a + b + h + p + q;
      forall i, j :: 0 <= i < j < |s| ==> FieldRank(s[i].field) < FieldRank(s[j].field)
  {
    var s := a + b + h + p + q;
    forall i | 0 <= i < |s|
      ensures FieldRank(s[i].field) == (if i < |a| then 0 else if i < |a| + |b| then 1
                                        else if i < |a| + |b| + |h| then 2 else if i < |a| + |b| + |h| + |p| then 3 else 4)
    {
    }
  }

  /** The ranks of the five field names. */
  lemma FieldRanks()
    ensures FieldRank("api_key") == 0 && FieldRank("agent_name") == 1 && FieldRank("http_port") == 2
    ensures FieldRank("p2p_port") == 3 && FieldRank("ports") == 4
  {
  }

  /** A configuration passes exactly when the key starts with "sk-" and has
      40 bytes or more, the name is 2 to 32 valid characters, both ports lie
      in 1024..65535, differ, and can be bound. */
  lemma ReportEmptyIff(c: Config, free: int -> bool)
    ensures Report(c, free) == [] <==>
      && HasPrefix(c.apiKey, "sk-") && Utf8Len(c.apiKey) >= 40
      && (forall i :: 0 <= i < |c.agentName| ==> IsValidNameChar(c.agentName[i]))
      && 2 <= |c.agentName| <= 32
      && 1024 <= c.httpPort <= 65535 && 1024 <= c.p2pPort <= 65535
      && c.httpPort != c.p2pPort
      && free(c.httpPort) && free(c.p2pPort)
  {
  }

  /** Equal ports are always reported, whatever else is wrong with them. */
  lemma EqualPortsReported(c: Config, free: int -> bool)
    requires c.httpPort == c.p2pPort
    ensures ValidationError("ports", PortsEqual) in Report(c, free)
  {
    assert StaticReport(c)[|StaticReport(c)| - 1] == ValidationError("ports", PortsEqual);
  }

  /** One problem rendered as "field: message". */
  function Render(e: ValidationError): (s: string)
    ensures HasPrefix(s, e.field + ": ") && s[|e.field| + 2..] == e.message
  {
    e.field + ": " + e.message
  }

  function Rendered(errors: seq<ValidationError>): (r: seq<string>)
    ensures |r| == |errors| && forall i :: 0 <= i < |errors| ==> r[i] == Render(errors[i])
  {
    if errors == [] then [] else Rendered(errors[..|errors| - 1]) + [Render(errors[|errors| - 1])]
  }

  /** The list's error text: empty for no problems, otherwise each problem
      rendered, separated by "; ". */
  method ErrorText(errors: seq<ValidationError>) returns (text: string)
    ensures errors == [] ==> text == ""
    ensures text == Join(Rendered(errors), "; ")
  {
    if |errors| == 0 {
      return "";
    }
    var msgs: seq<string> := [];
    for i := 0 to |errors|
      invariant msgs == Rendered(errors[..i])
    {
      assert errors[..i + 1][..i] == errors[..i];
      msgs := msgs + [Render(errors[i])];
    }
    assert errors[..|errors|] == errors;
    text := Join(msgs, "; ");
  }

  /** The text opens with the first problem. */
  lemma {:induction false} ErrorTextStartsWithFirst(errors: seq<ValidationError>)
    requires errors != []
    ensures HasPrefix(Join(Rendered(errors), "; "), Render(errors[0]))
    decreases |errors|
  {
    if |errors| > 1 {
      var init := errors[..|errors| - 1];
      ErrorTextStartsWithFirst(init);
      assert Rendered(errors)[..|errors| - 1] == Rendered(init);
      var j := Join(Rendered(init), "; ");
      assert Rendered(errors) == Rendered(init) + [Render(errors[|errors| - 1])];
      JoinSnoc(Rendered(init), Render(errors[|errors| - 1]), "; ");
      assert init[0] == errors[0];
      assert (j + "; " + Render(errors[|errors| - 1]))[..|Render(errors[0])|] == j[..|Render(errors[0])|];
    }
  }

  /** Whether the list holds any problem. */
  function HasErrors(errors: seq<ValidationError>): (b: bool)
    ensures b <==> errors != []
  {
    |errors| > 0
  }

  /** A configuration with no problem is exactly one `HasErrors` rejects not. */
  lemma HasErrorsIffRejected(c: Config, free: int -> bool)
    ensures !HasErrors(Report(c, free)) <==>
      ValidateAPIKey(c.apiKey).None? && ValidateAgentName(c.agentName).None? &&
      ValidatePort(c.httpPort, "http_port").None? && ValidatePort(c.p2pPort, "p2p_port").None? &&
      c.httpPort != c.p2pPort && free(c.httpPort) && free(c.p2pPort)
  {
  }
}
