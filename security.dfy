/** The security log helpers: who made a request (client address, user
    identifier, user agent) and the one-line messages written to the
    "interviews.security" logger. Every helper reads the client address by
    the same rule, written once here as `ClientIp`. */
module Security {
  import opened Wrappers
  import opened Text

  /** `request.META`: the WSGI environ, header values as strings. */
  type Meta = map<string, string>

  const ForwardedForKey: string := "HTTP_X_FORWARDED_FOR"
  const RemoteAddrKey: string := "REMOTE_ADDR"
  const UserAgentKey: string := "HTTP_USER_AGENT"
  const Unknown: string := "unknown"
  const UserAgentLimit: nat := 100

  /** `request.user`: an anonymous user or a logged-in one. */
  datatype RequestUser = AnonymousUser | AuthenticatedUser(id: nat, username: string)

  /** A request; `user` is `None` when the request has no `user` attribute. */
  datatype Request = Request(meta: Meta, user: Option<RequestUser>)

  /** `meta.get(key)`. */
  function Get(meta: Meta, key: string): Option<string> {
    if key in meta then Some(meta[key]) else None
  }

  /** Whether `X-Forwarded-For` is present and non-empty (truthy). */
  predicate HasForwardedFor(meta: Meta) {
    ForwardedForKey in meta && meta[ForwardedForKey] != ""
  }

  /** `x_forwarded_for.split(",")[0].strip()`: the first listed client,
      without surrounding whitespace. */
  function ForwardedClient(header: string): (ip: string)
    ensures ',' !in ip
    ensures ip != [] ==> !IsSpace(ip[0]) && !IsSpace(ip[|ip| - 1])
    ensures ip == Strip(FirstField(header, ','))
  {
    var first := FirstField(header, ',');
    var ip := Strip(first);
    assert ip == first[LeadingSpace(first)..LeadingSpace(first) + |ip|];
    assert forall k :: 0 <= k < |ip| ==> ip[k] == first[LeadingSpace(first) + k];
    ip
  }

  /** The client address every security log line carries: the first
      `X-Forwarded-For` entry when that header is non-empty, otherwise
      `REMOTE_ADDR`, otherwise "unknown". */
  function ClientIp(meta: Meta): (ip: string)
    ensures HasForwardedFor(meta) ==> ip == ForwardedClient(meta[ForwardedForKey])
    ensures !HasForwardedFor(meta) && RemoteAddrKey in meta ==> ip == meta[RemoteAddrKey]
    ensures !HasForwardedFor(meta) && RemoteAddrKey !in meta ==> ip == Unknown
  {
    if HasForwardedFor(meta) then ForwardedClient(meta[ForwardedForKey])
    else if RemoteAddrKey in meta then meta[RemoteAddrKey]
    else Unknown
  }

  /** Proxies append to `X-Forwarded-For`, and what they append never
      changes the address logged, nor does `REMOTE_ADDR` once the header is
      there. */
  lemma ClientIpIgnoresLaterHops(meta: Meta, first: string, rest: string, remote: string)
    requires ',' !in first
    ensures ClientIp(meta[ForwardedForKey := first + "," + rest][RemoteAddrKey := remote]) == Strip(first)
  {
    var header := first + "," + rest;
    assert header[|first|] == ',';
    FirstFieldUnique(header, ',', first);
  }

  /** A header of one address and no spaces is logged as it is. */
  lemma ClientIpSingleAddress(meta: Meta, addr: string)
    requires addr != [] && ',' !in addr
    requires forall k :: 0 <= k < |addr| ==> !IsSpace(addr[k])
    ensures ClientIp(meta[ForwardedForKey := addr]) == addr
  {
    FirstFieldUnique(addr, ',', addr);
    StripKeepsTrimmed(addr);
  }

  /** A non-empty header that holds only blanks before its first comma
      yields an empty address, and `REMOTE_ADDR` is not consulted. */
  lemma ClientIpBlankHeader(meta: Meta)
    ensures ClientIp(meta[ForwardedForKey := " , 10.0.0.1"]) == ""
  {
    var header := " , 10.0.0.1";
    assert header[1] == ',';
    FirstFieldUnique(header, ',', " ");
    assert LeadingSpace(" ") == 1;
  }

  /** `user:{id}:{username}` for a logged-in user, "anonymous" otherwise. */
  function UserIdentifier(user: Option<RequestUser>): (uid: string)
    ensures (user.Some? && user.value.AuthenticatedUser?) <==> StartsWith(uid, "user:")
    ensures !(user.Some? && user.value.AuthenticatedUser?) ==> uid == "anonymous"
  {
    match user
    case Some(AuthenticatedUser(id, username)) => "user:" + NatToString(id) + ":" + username
    case _ => assert "anonymous"[0] != 'u'; "anonymous"
  }

  /** Two logged-in users are logged alike only when they have the same id
      and the same username. */
  lemma UserIdentifierInjective(a: RequestUser, b: RequestUser)
    requires a.AuthenticatedUser? && b.AuthenticatedUser?
    requires UserIdentifier(Some(a)) == UserIdentifier(Some(b))
    ensures a == b
  {
    var s := UserIdentifier(Some(a));
    var ta := ":" + a.username;
    var tb := ":" + b.username;
    assert s == "user:" + (NatToString(a.id) + ta);
    assert s == "user:" + (NatToString(b.id) + tb);
    assert s[5..] == NatToString(a.id) + ta;
    assert s[5..] == NatToString(b.id) + tb;
    DigitsThenTailUnique(NatToString(a.id), ta, NatToString(b.id), tb);
    NatToStringInjective(a.id, b.id);
    assert a.username == ta[1..] == tb[1..] == b.username;
  }

  /** `META.get("HTTP_USER_AGENT", "unknown")[:100]`. */
  function UserAgent(meta: Meta): (ua: string)
    ensures |ua| <= UserAgentLimit
    ensures UserAgentKey in meta ==> StartsWith(meta[UserAgentKey], ua)
    ensures UserAgentKey in meta && |meta[UserAgentKey]| <= UserAgentLimit ==> ua == meta[UserAgentKey]
    ensures UserAgentKey in meta && |meta[UserAgentKey]| > UserAgentLimit ==> |ua| == UserAgentLimit
    ensures UserAgentKey !in meta ==> ua == Unknown
  {
    Take(if UserAgentKey in meta then meta[UserAgentKey] else Unknown, UserAgentLimit)
  }

  // ---------------------------------------------------------------------------
  // Log lines
  // ---------------------------------------------------------------------------

  datatype Level = Info | Warning | Error

  datatype LogRecord = LogRecord(level: Level, message: string)

  function Status(success: bool): string {
    if success then " SUCCESS" else " FAILED"
  }

  /** `message += f"{prefix}{text}"` guarded by `if text:`. */
  function OptionalField(prefix: string, text: string): string {
    if text != "" then prefix + text else ""
  }

  /** The first field of an auth line: event type, status and client. */
  function AuthEventLead(eventType: string, request: Request, success: bool): string {
    Upper(eventType) + Status(success) + " | IP: " + ClientIp(request.meta)
  }

  /** The auth line before any details. */
  function AuthEventHead(eventType: string, request: Request, success: bool): (h: string)
    ensures StartsWith(h, AuthEventLead(eventType, request, success))
    ensures EndsWith(h, " | UA: " + UserAgent(request.meta))
  {
    var lead := AuthEventLead(eventType, request, success);
    var user := " | User: " + UserIdentifier(request.user);
    var agent := " | UA: " + UserAgent(request.meta);
    ConcatEnds(lead, user);
    ConcatEnds(lead + user, agent);
    StartsWithAppend(lead + user, lead, agent);
    lead + user + agent
  }

  /** `log_auth_event`: the uppercased event type and its status, the
      client, the user and the user agent, then the details when there are
      any; success logs at info level and failure at warning level. */
  function LogAuthEvent(eventType: string, request: Request, success: bool, details: string): (r: LogRecord)
    ensures r.level == (if success then Info else Warning)
    ensures StartsWith(r.message, AuthEventLead(eventType, request, success))
    ensures details == "" ==> r.message == AuthEventHead(eventType, request, success)
    ensures details != "" ==> r.message == AuthEventHead(eventType, request, success) + " | Details: " + details
    ensures details != "" ==> EndsWith(r.message, " | Details: " + details)
  {
    var head := AuthEventHead(eventType, request, success);
    var extra := OptionalField(" | Details: ", details);
    assert details == "" ==> head + extra == head;
    ConcatEnds(head, extra);
    StartsWithAppend(head, AuthEventLead(eventType, request, success), extra);
    LogRecord(if success then Info else Warning, head + extra)
  }

  /** Details only ever extend the line written without them. */
  lemma LogAuthEventDetails(eventType: string, request: Request, success: bool, details: string)
    requires details != ""
    ensures LogAuthEvent(eventType, request, success, details).message
         == LogAuthEvent(eventType, request, success, "").message + " | Details: " + details
  {
  }

  /** A successful and a failed attempt never produce the same line: the
      word after the event type tells them apart. */
  lemma LogAuthEventStatusDiffers(eventType: string, request: Request, details: string)
    ensures LogAuthEvent(eventType, request, true, details).message
         != LogAuthEvent(eventType, request, false, details).message
  {
    var n := |Upper(eventType)|;
    var a := LogAuthEvent(eventType, request, true, details).message;
    var b := LogAuthEvent(eventType, request, false, details).message;
    StatusLetter(eventType, request, true);
    StatusLetter(eventType, request, false);
    assert a[n + 1] == AuthEventLead(eventType, request, true)[n + 1];
    assert b[n + 1] == AuthEventLead(eventType, request, false)[n + 1];
  }

  /** The letter right after the event type and its blank. */
  lemma StatusLetter(eventType: string, request: Request, success: bool)
    ensures |AuthEventLead(eventType, request, success)| > |Upper(eventType)| + 1
    ensures AuthEventLead(eventType, request, success)[|Upper(eventType)| + 1] == (if success then 'S' else 'F')
  {
    var u := Upper(eventType);
    var st := Status(success);
    var lead := AuthEventLead(eventType, request, success);
    assert (u + st)[|u| + 1] == st[1];
    assert lead == (u + st) + (" | IP: " + ClientIp(request.meta));
  }

  /** The first field of a permission line: the client. */
  function PermissionDeniedLead(request: Request): string {
    "PERMISSION_DENIED | IP: " + ClientIp(request.meta)
  }

  /** The permission line before any reason. */
  function PermissionDeniedHead(request: Request, resource: string): (h: string)
    ensures StartsWith(h, PermissionDeniedLead(request))
    ensures EndsWith(h, " | Resource: " + resource)
  {
    var lead := PermissionDeniedLead(request);
    var user := " | User: " + UserIdentifier(request.user);
    var target := " | Resource: " + resource;
    ConcatEnds(lead, user);
    ConcatEnds(lead + user, target);
    StartsWithAppend(lead + user, lead, target);
    lead + user + target
  }

  /** `log_permission_denied`: always at warning level; the reason is
      appended only when it is non-empty. */
  function LogPermissionDenied(request: Request, resource: string, reason: string): (r: LogRecord)
    ensures r.level == Warning
    ensures StartsWith(r.message, PermissionDeniedLead(request))
    ensures reason == "" ==> r.message == PermissionDeniedHead(request, resource)
    ensures reason != "" ==> r.message == PermissionDeniedHead(request, resource) + " | Reason: " + reason
    ensures reason != "" ==> EndsWith(r.message, " | Reason: " + reason)
  {
    var head := PermissionDeniedHead(request, resource);
    var extra := OptionalField(" | Reason: ", reason);
    assert reason == "" ==> head + extra == head;
    ConcatEnds(head, extra);
    StartsWithAppend(head, PermissionDeniedLead(request), extra);
    LogRecord(Warning, head + extra)
  }

  /** A reason only ever adds " | Reason: " and itself to the line it would
      have had without one, so different reasons give different lines. */
  lemma LogPermissionDeniedReason(request: Request, resource: string, reason: string, other: string)
    requires reason != ""
    ensures LogPermissionDenied(request, resource, reason).message
         == LogPermissionDenied(request, resource, "").message + " | Reason: " + reason
    ensures other != reason ==>
              LogPermissionDenied(request, resource, reason) != LogPermissionDenied(request, resource, other)
  {
    var lead := PermissionDeniedHead(request, resource) + " | Reason: ";
    var m := LogPermissionDenied(request, resource, reason).message;
    var n := LogPermissionDenied(request, resource, other).message;
    assert m[|lead|..] == reason;
    if other == "" {
      assert |n| < |m|;
    } else {
      assert n[|lead|..] == other;
    }
  }

  /** `log_rate_limited`: the client and the endpoint, at warning level; the
      user is not part of the line. */
  function LogRateLimited(request: Request, endpoint: string): (r: LogRecord)
    ensures r.level == Warning
    ensures StartsWith(r.message, "RATE_LIMITED | IP: " + ClientIp(request.meta))
    ensures EndsWith(r.message, " | Endpoint: " + endpoint)
    ensures |r.message| == |"RATE_LIMITED | IP: " + ClientIp(request.meta)| + |" | Endpoint: " + endpoint|
  {
    var lead := "RATE_LIMITED | IP: " + ClientIp(request.meta);
    var target := " | Endpoint: " + endpoint;
    ConcatEnds(lead, target);
    LogRecord(Warning, lead + target)
  }

  /** `log_suspicious_activity`: the activity type, client, user and
      details, at error level; the details field is written even when it is
      empty. */
  function LogSuspiciousActivity(request: Request, activityType: string, details: string): (r: LogRecord)
    ensures r.level == Error
    ensures StartsWith(r.message, "SUSPICIOUS | Type: " + activityType + " | IP: " + ClientIp(request.meta))
    ensures EndsWith(r.message, " | Details: " + details)
    ensures var lead := "SUSPICIOUS | Type: " + activityType + " | IP: " + ClientIp(request.meta);
            |lead| + |" | Details: " + details| <= |r.message| &&
            r.message[|lead|..|r.message| - |" | Details: " + details|] == " | User: " + UserIdentifier(request.user)
  {
    var lead := "SUSPICIOUS | Type: " + activityType + " | IP: " + ClientIp(request.meta);
    var user := " | User: " + UserIdentifier(request.user);
    var extra := " | Details: " + details;
    ConcatEnds(lead, user);
    ConcatEnds(lead + user, extra);
    StartsWithAppend(lead + user, lead, extra);
    assert (lead + user + extra)[|lead|..|lead + user|] == user;
    LogRecord(Error, lead + user + extra)
  }
}
