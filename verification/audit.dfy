/**
  Audit log helpers (internal/audit/logger.go).

  Both helpers build a log entry from the entity, its ID and the action, add
  the user's DID and the request ID found in the request context, and hand the
  entry to the repository, returning only the repository's error.  The request
  variant also records the client's IP address and user agent.  The context
  lookups are modelled as a `RequestContext` value and the repository as a
  function from the entry to the stored record and an error.
 */
module Audit {
  import opened Wrappers

  datatype LogEntry = LogEntry(
    userDID: string,
    entityType: string,
    entityID: string,
    action: string,
    requestID: string,
    ipAddress: string,
    userAgent: string)

  /** The user's DID and the request ID as the context lookups return them ("" when absent). */
  datatype RequestContext = RequestContext(userDID: string, requestID: string)

  /**
    The parts of an HTTP request the helper reads.  `forwardedFor` is the value
    of the X-Forwarded-For header, "" when the header is absent.
   */
  datatype Request = Request(remoteAddr: string, forwardedFor: string, userAgent: string, context: RequestContext)

  /** White space as Unicode defines it (the White_Space property). */
  predicate IsSpace(c: char) {
    || '\t' <= c <= '\r'
    || c == ' '
    || c as int == 0x85
    || c as int == 0xA0
    || c as int == 0x1680
    || 0x2000 <= c as int <= 0x200A
    || c as int == 0x2028
    || c as int == 0x2029
    || c as int == 0x202F
    || c as int == 0x205F
    || c as int == 0x3000
  }

  /** The index of the first character of `s` that is not white space, or |s| if there is none. */
  function TrimStart(s: string): (k: nat)
    ensures k <= |s|
    ensures forall i :: 0 <= i < k ==> IsSpace(s[i])
    ensures k == |s| || !IsSpace(s[k])
  {
    if s == [] || !IsSpace(s[0]) then 0 else 1 + TrimStart(s[1..])
  }

  /** One past the last character of `s` that is not white space, or 0 if there is none. */
  function TrimEnd(s: string): (k: nat)
    ensures k <= |s|
    ensures forall i :: k <= i < |s| ==> IsSpace(s[i])
    ensures k == 0 || !IsSpace(s[k - 1])
  {
    if s == [] || !IsSpace(s[|s| - 1]) then |s| else TrimEnd(s[..|s| - 1])
  }

  /** `s` without leading and trailing white space (strings.TrimSpace). */
  function TrimSpace(s: string): (r: string)
    ensures r == [] <==> forall i :: 0 <= i < |s| ==> IsSpace(s[i])
    ensures r != [] ==>
              TrimStart(s) < TrimEnd(s) && r == s[TrimStart(s)..TrimEnd(s)] &&
              !IsSpace(r[0]) && !IsSpace(r[|r| - 1])
  {
    if TrimStart(s) == |s| then [] else s[TrimStart(s)..TrimEnd(s)]
  }

  /**
    The first field of `s` split on commas: everything before the first comma,
    or all of `s` when it has none.
   */
  function FirstSegment(s: string): (r: string)
    ensures r <= s && ',' !in r
    ensures |r| < |s| ==> s[|r|] == ','
  {
    if s == [] || s[0] == ',' then [] else [s[0]] + FirstSegment(s[1..])
  }

  /**
    The client IP recorded for a request: the first comma-separated entry of
    X-Forwarded-For, trimmed, when the header is set and that entry is not
    blank; the connection's remote address otherwise.
   */
  function ClientIP(remoteAddr: string, forwardedFor: string): (ip: string)
    ensures forwardedFor == [] ==> ip == remoteAddr
    ensures ip == remoteAddr || (ip != [] && ',' !in ip && !IsSpace(ip[0]) && !IsSpace(ip[|ip| - 1]))
  {
    var ip := remoteAddr;
    if forwardedFor != [] && TrimSpace(FirstSegment(forwardedFor)) != [] then
      var first := FirstSegment(forwardedFor);
      var trimmed := TrimSpace(first);
      assert forall c :: c in trimmed ==> c in first;
      trimmed
    else
      ip
  }

  /**
    When the header's first entry (the text before its first comma, at `k`)
    holds something other than white space, running from `a` to `b`, then
    that part is the IP, whatever the remote address.
   */
  lemma HeaderFirstEntryWins(remoteAddr: string, forwardedFor: string, k: nat, a: nat, b: nat)
    requires k <= |forwardedFor| && ',' !in forwardedFor[..k]
    requires k == |forwardedFor| || forwardedFor[k] == ','
    requires a < b <= k && !IsSpace(forwardedFor[a]) && !IsSpace(forwardedFor[b - 1])
    requires forall i :: 0 <= i < a ==> IsSpace(forwardedFor[i])
    requires forall i :: b <= i < k ==> IsSpace(forwardedFor[i])
    ensures ClientIP(remoteAddr, forwardedFor) == forwardedFor[a..b]
  {
    var first := FirstSegment(forwardedFor);
    FirstSegmentIs(forwardedFor, k);
    assert first == forwardedFor[..k];
    assert first[a] == forwardedFor[a] && first[b - 1] == forwardedFor[b - 1];
    assert forall i :: 0 <= i < a ==> IsSpace(first[i]);
    assert forall i :: b <= i < |first| ==> IsSpace(first[i]);
    TrimBoundsAre(first, a, b);
    assert TrimStart(first) != |first|;
    assert TrimSpace(first) == first[a..b];
    SliceOfPrefix(forwardedFor, k, a, b);
  }

  lemma SliceOfPrefix(s: string, k: nat, a: nat, b: nat)
    requires a <= b <= k <= |s|
    ensures s[..k][a..b] == s[a..b]
  {
  }

  /** The trimming bounds are the first and one past the last character that is not white space. */
  lemma TrimBoundsAre(s: string, a: nat, b: nat)
    requires a < b <= |s| && !IsSpace(s[a]) && !IsSpace(s[b - 1])
    requires forall i :: 0 <= i < a ==> IsSpace(s[i])
    requires forall i :: b <= i < |s| ==> IsSpace(s[i])
    ensures TrimStart(s) == a && TrimEnd(s) == b
  {
  }

  /** The text before the first comma, located by its index, is the first segment. */
  lemma FirstSegmentIs(s: string, k: nat)
    requires k <= |s| && ',' !in s[..k]
    requires k == |s| || s[k] == ','
    ensures FirstSegment(s) == s[..k]
  {
  }

  /**
    When the header's first entry is blank, the remote address is used, even
    if later entries are not blank.
   */
  lemma BlankFirstEntryFallsBack(remoteAddr: string, forwardedFor: string, k: nat)
    requires k <= |forwardedFor| && ',' !in forwardedFor[..k]
    requires k == |forwardedFor| || forwardedFor[k] == ','
    requires forall i :: 0 <= i < k ==> IsSpace(forwardedFor[i])
    ensures ClientIP(remoteAddr, forwardedFor) == remoteAddr
  {
    FirstSegmentIs(forwardedFor, k);
  }

  /** Without the header the remote address is recorded as it is. */
  lemma NoHeaderExample()
    ensures ClientIP("192.168.1.100:12345", "") == "192.168.1.100:12345"
  {
  }

  /** A single forwarded address takes precedence over the remote address. */
  lemma SingleForwardedExample()
    ensures ClientIP("192.168.1.100:12345", "203.0.113.195") == "203.0.113.195"
  {
    var single := "203.0.113.195";
    assert single[..13] == single;
    HeaderFirstEntryWins("192.168.1.100:12345", single, 13, 0, 13);
  }

  /** Of a proxy chain, the first address is taken, without its surrounding blanks. */
  lemma ProxyChainExample()
    ensures ClientIP("192.168.1.100:12345", " " + "203.0.113.195" + " " + ", 70.41.3.18") == "203.0.113.195"
  {
    var single := "203.0.113.195";
    var padded := " " + single + " ";
    var list := padded + ", 70.41.3.18";
    assert list[..15] == padded && list[15] == ',';
    assert padded[1..14] == single;
    assert list[1..14] == single;
    HeaderFirstEntryWins("192.168.1.100:12345", list, 15, 1, 14);
  }

  /** A blank first entry falls back to the remote address although a later entry is set. */
  lemma BlankFirstEntryExample()
    ensures ClientIP("192.168.1.100:12345", " , 70.41.3.18") == "192.168.1.100:12345"
  {
    BlankFirstEntryFallsBack("192.168.1.100:12345", " , 70.41.3.18", 1);
  }

  /** The entry `LogAccess` submits: entity, ID and action verbatim, and the context's values. */
  function AccessEntry(ctx: RequestContext, entityType: string, entityID: string, action: string): (e: LogEntry)
    ensures e.entityType == entityType && e.entityID == entityID && e.action == action
    ensures e.userDID == ctx.userDID && e.requestID == ctx.requestID
    ensures e.ipAddress == [] && e.userAgent == []
  {
    LogEntry(ctx.userDID, entityType, entityID, action, ctx.requestID, "", "")
  }

  /**
    The entry `LogAccessFromRequest` submits: entity, ID and action verbatim,
    the request context's values, the client IP and the user agent.
   */
  function RequestEntry(r: Request, entityType: string, entityID: string, action: string): (e: LogEntry)
    ensures e.entityType == entityType && e.entityID == entityID && e.action == action
    ensures e.userDID == r.context.userDID && e.requestID == r.context.requestID
    ensures e.ipAddress == ClientIP(r.remoteAddr, r.forwardedFor) && e.userAgent == r.userAgent
  {
    LogEntry(r.context.userDID, entityType, entityID, action, r.context.requestID,
             ClientIP(r.remoteAddr, r.forwardedFor), r.userAgent)
  }

  /** The two helpers record the same entry apart from the request's IP address and user agent. */
  lemma EntriesAgree(r: Request, entityType: string, entityID: string, action: string)
    ensures RequestEntry(r, entityType, entityID, action) ==
              AccessEntry(r.context, entityType, entityID, action).(
                ipAddress := ClientIP(r.remoteAddr, r.forwardedFor), userAgent := r.userAgent)
  {
  }

  /**
    Records an access: the repository receives the entry and the helper
    returns the repository's error as it is, discarding the stored record.
   */
  function LogAccess<R>(ctx: RequestContext, repo: LogEntry -> (R, Option<string>),
                        entityType: string, entityID: string, action: string): (err: Option<string>)
    ensures err == repo(AccessEntry(ctx, entityType, entityID, action)).1
  {
    var (_, err) := repo(AccessEntry(ctx, entityType, entityID, action));
    err
  }

  /** Records an access with the request's metadata; the repository's error is returned as it is. */
  function LogAccessFromRequest<R>(r: Request, repo: LogEntry -> (R, Option<string>),
                                   entityType: string, entityID: string, action: string): (err: Option<string>)
    ensures err == repo(RequestEntry(r, entityType, entityID, action)).1
  {
    var (_, err) := repo(RequestEntry(r, entityType, entityID, action));
    err
  }
}
