/** `policy.rs`: access policies and their evaluation. Instants are in nanoseconds. */
module Policy {
  import opened Wrappers
  import opened Text

  datatype DeliveryMode =
    | BrokeredHttp | BrokeredOperation | Callback | Pipe | Fd | TempFile | ChildEnv | Raw | TerminalPrint

  datatype AccessPolicy = AccessPolicy(
    policyId: string,
    secretRefs: seq<string>,
    allowedConsumers: seq<string>,
    deniedConsumers: seq<string>,
    allowedPurposes: seq<string>,
    deniedPurposes: seq<string>,
    allowedDeliveryModes: seq<DeliveryMode>,
    allowedHttpHosts: seq<string>,
    deniedHttpHosts: seq<string>,
    allowedHttpMethods: seq<string>,
    deniedHttpMethods: seq<string>,
    allowedHttpPathPrefixes: seq<string>,
    deniedHttpPathPrefixes: seq<string>,
    requireHttps: bool,
    maxHttpRequestBodyBytes: Option<nat>,
    allowedOsUids: seq<nat>,
    deniedOsUids: seq<nat>,
    allowedExecutablePaths: seq<string>,
    deniedExecutablePaths: seq<string>,
    allowedExecutableSha256: seq<string>,
    deniedExecutableSha256: seq<string>,
    exportable: bool,
    maxTicketTtlSeconds: nat,
    maxUses: nat,
    minimumProviderAssurance: string,
    requireMfa: bool,
    allowUnboundPlaintextExport: bool,
    expiresAt: Option<int>)

  datatype AccessRequest = AccessRequest(
    secretRef: string,
    consumer: string,
    purpose: string,
    deliveryMode: DeliveryMode,
    providerAssurance: string,
    rawExportRequested: bool,
    httpHost: Option<string>,
    httpScheme: Option<string>,
    httpMethod: Option<string>,
    httpPath: Option<string>,
    httpRequestBodyBytes: Option<nat>,
    osUid: Option<nat>,
    executablePath: Option<string>,
    executableSha256: Option<string>,
    mfaVerified: bool,
    brokerSessionId: Option<string>,
    now: int)

  datatype PolicyDecision = Allow | Deny

  datatype EvaluationResult = EvaluationResult(decision: PolicyDecision, reason: string, policy: Option<AccessPolicy>)

  function AssuranceRank(level: string): int
  {
    match level
    case "A0" => 0
    case "A1" => 1
    case "A2" => 2
    case "A3" => 3
    case "A4" => 4
    case "A5" => 5
    case _ => -1
  }

  predicate HasPeerBinding(p: AccessPolicy)
  {
    p.allowedOsUids != [] || p.allowedExecutablePaths != [] || p.allowedExecutableSha256 != []
  }

  predicate ListedOrAny(list: seq<string>, item: string)
  {
    item in list || "*" in list
  }

  predicate AnyPrefix(prefixes: seq<string>, path: string)
  {
    exists prefix <- prefixes :: prefix <= path
  }

  function UpperList(list: seq<string>): seq<string>
  {
    seq(|list|, i requires 0 <= i < |list| => UpperAll(list[i]))
  }

  /** The guards of `evaluate_brokered_http` in order; `None` means it passes. */
  function BrokeredHttpDenial(p: AccessPolicy, q: AccessRequest): Option<string>
  {
    if q.httpHost.None? then Some("HTTP host required for brokered_http")
    else if p.requireHttps && q.httpScheme != Some("https") then Some("HTTPS required for brokered_http")
    else if q.httpHost.value in p.deniedHttpHosts then Some("HTTP host explicitly denied")
    else if p.allowedHttpHosts != [] && !ListedOrAny(p.allowedHttpHosts, q.httpHost.value) then
      Some("HTTP host not allowed")
    else if q.httpMethod.None? then Some("HTTP method required for brokered_http")
    else
      var verb := UpperAll(q.httpMethod.value);
      var allowed := UpperList(p.allowedHttpMethods);
      if verb in UpperList(p.deniedHttpMethods) then Some("HTTP method explicitly denied")
      else if allowed != [] && !ListedOrAny(allowed, verb) then Some("HTTP method not allowed")
      else if q.httpPath.None? then Some("HTTP path required for brokered_http")
      else if AnyPrefix(p.deniedHttpPathPrefixes, q.httpPath.value) then Some("HTTP path explicitly denied")
      else if p.allowedHttpPathPrefixes != [] && !AnyPrefix(p.allowedHttpPathPrefixes, q.httpPath.value) then
        Some("HTTP path not allowed")
      else if p.maxHttpRequestBodyBytes.Some? && q.httpRequestBodyBytes.Some?
              && q.httpRequestBodyBytes.value > p.maxHttpRequestBodyBytes.value then
        Some("HTTP request body too large")
      else None
  }

  /** The guards of `evaluate_policy` in order; `None` means the policy allows the request. */
  function Denial(p: AccessPolicy, q: AccessRequest): Option<string>
  {
    if !ListedOrAny(p.secretRefs, q.secretRef) then Some("secret reference not covered")
    else if p.expiresAt.Some? && q.now > p.expiresAt.value then Some("policy expired")
    else if q.consumer in p.deniedConsumers then Some("consumer explicitly denied")
    else if q.purpose in p.deniedPurposes then Some("purpose explicitly denied")
    else if !ListedOrAny(p.allowedConsumers, q.consumer) then Some("consumer not allowed")
    else if !ListedOrAny(p.allowedPurposes, q.purpose) then Some("purpose not allowed")
    else if q.deliveryMode !in p.allowedDeliveryModes then Some("delivery mode not allowed")
    else if q.osUid.Some? && q.osUid.value in p.deniedOsUids then Some("OS user explicitly denied")
    else if p.allowedOsUids != [] && !(q.osUid.Some? && q.osUid.value in p.allowedOsUids) then
      Some("OS user not allowed")
    else if q.executablePath.Some? && q.executablePath.value in p.deniedExecutablePaths then
      Some("executable path explicitly denied")
    else if p.allowedExecutablePaths != []
            && !(q.executablePath.Some? && q.executablePath.value in p.allowedExecutablePaths) then
      Some("executable path not allowed")
    else if q.executableSha256.Some? && q.executableSha256.value in p.deniedExecutableSha256 then
      Some("executable hash explicitly denied")
    else if p.allowedExecutableSha256 != []
            && !(q.executableSha256.Some? && q.executableSha256.value in p.allowedExecutableSha256) then
      Some("executable hash not allowed")
    else if q.deliveryMode.BrokeredHttp? && BrokeredHttpDenial(p, q).Some? then BrokeredHttpDenial(p, q)
    else if q.rawExportRequested && !p.exportable then Some("raw export not allowed")
    else if q.rawExportRequested && (q.deliveryMode.Raw? || q.deliveryMode.TerminalPrint?)
            && !p.allowUnboundPlaintextExport && !HasPeerBinding(p) then
      Some("raw plaintext export requires a non-spoofable peer binding")
    else if AssuranceRank(q.providerAssurance) < AssuranceRank(p.minimumProviderAssurance) then
      Some("provider assurance too low")
    else if p.requireMfa && !q.mfaVerified then Some("MFA required")
    else None
  }

  /** The first policy of the list that allows the request decides. */
  function Evaluate(policies: seq<AccessPolicy>, q: AccessRequest): EvaluationResult
  {
    if policies == [] then EvaluationResult(Deny, "no matching allow policy", None)
    else if Denial(policies[0], q) == None then EvaluationResult(Allow, "allowed", Some(policies[0]))
    else Evaluate(policies[1..], q)
  }

  // ---- What a policy grants, clause by clause ----

  /** A request attribute must avoid the deny list and, if there is an allow list, be on it. */
  predicate Passes<T(==)>(attribute: Option<T>, allowed: seq<T>, denied: seq<T>)
  {
    match attribute
    case None => allowed == []
    case Some(x) => x !in denied && (allowed == [] || x in allowed)
  }

  ghost predicate GrantsHttp(p: AccessPolicy, q: AccessRequest)
  {
    && q.httpHost.Some? && q.httpMethod.Some? && q.httpPath.Some?
    && (p.requireHttps ==> q.httpScheme == Some("https"))
    && (Passes(q.httpHost, p.allowedHttpHosts, p.deniedHttpHosts)
        || ("*" in p.allowedHttpHosts && q.httpHost.value !in p.deniedHttpHosts))
    && (forall m <- p.deniedHttpMethods :: UpperAll(m) != UpperAll(q.httpMethod.value))
    && (p.allowedHttpMethods == []
        || exists m <- p.allowedHttpMethods :: UpperAll(m) == UpperAll(q.httpMethod.value) || m == "*")
    && (forall prefix <- p.deniedHttpPathPrefixes :: !(prefix <= q.httpPath.value))
    && (p.allowedHttpPathPrefixes == [] || AnyPrefix(p.allowedHttpPathPrefixes, q.httpPath.value))
    && (forall limit, size :: p.maxHttpRequestBodyBytes == Some(limit) && q.httpRequestBodyBytes == Some(size) ==> size <= limit)
  }

  ghost predicate Grants(p: AccessPolicy, q: AccessRequest)
  {
    && ListedOrAny(p.secretRefs, q.secretRef)
    && ListedOrAny(p.allowedConsumers, q.consumer) && q.consumer !in p.deniedConsumers
    && ListedOrAny(p.allowedPurposes, q.purpose) && q.purpose !in p.deniedPurposes
    && q.deliveryMode in p.allowedDeliveryModes
    && Passes(q.osUid, p.allowedOsUids, p.deniedOsUids)
    && Passes(q.executablePath, p.allowedExecutablePaths, p.deniedExecutablePaths)
    && Passes(q.executableSha256, p.allowedExecutableSha256, p.deniedExecutableSha256)
    && (p.expiresAt.Some? ==> q.now <= p.expiresAt.value)
    && (q.deliveryMode.BrokeredHttp? ==> GrantsHttp(p, q))
    && (q.rawExportRequested ==> p.exportable)
    && (q.rawExportRequested && q.deliveryMode in {Raw, TerminalPrint} ==>
          p.allowUnboundPlaintextExport || HasPeerBinding(p))
    && AssuranceRank(q.providerAssurance) >= AssuranceRank(p.minimumProviderAssurance)
    && (p.requireMfa ==> q.mfaVerified)
  }

  lemma UpperListMembers(list: seq<string>, verb: string)
    ensures verb in UpperList(list) <==> exists m <- list :: UpperAll(m) == verb
    ensures "*" in UpperList(list) <==> "*" in list
  {
    var upper := UpperList(list);
    if verb in upper {
      var i :| 0 <= i < |upper| && upper[i] == verb;
      assert list[i] in list;
    }
    if m :| m in list && UpperAll(m) == verb {
      var i :| 0 <= i < |list| && list[i] == m;
      assert upper[i] == verb;
    }
    if "*" in upper {
      var i :| 0 <= i < |upper| && upper[i] == "*";
      assert |list[i]| == |UpperAll(list[i])| == 1;
      assert UpperAll(list[i])[0] == Upper(list[i][0]);
      assert list[i] == "*";
    }
    if "*" in list {
      var i :| 0 <= i < |list| && list[i] == "*";
      assert upper[i] == UpperAll("*") == "*";
    }
  }

  lemma HttpDenialExact(p: AccessPolicy, q: AccessRequest)
    ensures BrokeredHttpDenial(p, q) == None <==> GrantsHttp(p, q)
  {
    if q.httpMethod.Some? {
      var verb := UpperAll(q.httpMethod.value);
      UpperListMembers(p.allowedHttpMethods, verb);
      UpperListMembers(p.deniedHttpMethods, verb);
    }
  }

  /** A policy's chain of guards allows exactly what the policy grants. */
  lemma DenialExact(p: AccessPolicy, q: AccessRequest)
    ensures Denial(p, q) == None <==> Grants(p, q)
  {
    HttpDenialExact(p, q);
    hide BrokeredHttpDenial, GrantsHttp, HasPeerBinding, AssuranceRank, ListedOrAny;
  }

  /** The engine allows iff some policy grants, names the earliest such policy, and a denial
      never carries a policy. */
  lemma {:induction false} EvaluateExact(policies: seq<AccessPolicy>, q: AccessRequest)
    ensures var r := Evaluate(policies, q);
            && (r.decision == Allow <==> exists p <- policies :: Grants(p, q))
            && (r.policy.Some? <==> r.decision == Allow)
            && (r.decision == Allow ==>
                  exists i :: 0 <= i < |policies| && r.policy == Some(policies[i]) && Grants(policies[i], q)
                    && forall j :: 0 <= j < i ==> !Grants(policies[j], q))
  {
    if policies != [] {
      DenialExact(policies[0], q);
      if Denial(policies[0], q) != None {
        EvaluateExact(policies[1..], q);
        assert policies == [policies[0]] + policies[1..];
        var r := Evaluate(policies[1..], q);
        if r.decision == Allow {
          var i :| 0 <= i < |policies[1..]| && r.policy == Some(policies[1..][i]) && Grants(policies[1..][i], q)
            && forall j :: 0 <= j < i ==> !Grants(policies[1..][j], q);
          forall j | 0 <= j < i + 1 ensures !Grants(policies[j], q) {
            assert j > 0 ==> policies[j] == policies[1..][j - 1];
          }
          assert r.policy == Some(policies[i + 1]);
        }
      }
    }
  }

  /** More policies never deny what fewer allowed; in particular order is irrelevant. */
  lemma MorePoliciesAllowMore(few: seq<AccessPolicy>, many: seq<AccessPolicy>, q: AccessRequest)
    requires forall p <- few :: p in many
    ensures Evaluate(few, q).decision == Allow ==> Evaluate(many, q).decision == Allow
    ensures (forall p <- many :: p in few) ==> Evaluate(few, q).decision == Evaluate(many, q).decision
  {
    EvaluateExact(few, q);
    EvaluateExact(many, q);
  }

  /** `r` differs from `q` only by stronger assurance, verified MFA, no raw export, a smaller
      body or an earlier time. */
  ghost predicate Eases(q: AccessRequest, r: AccessRequest)
  {
    && r == q.(providerAssurance := r.providerAssurance, mfaVerified := r.mfaVerified,
               rawExportRequested := r.rawExportRequested, httpRequestBodyBytes := r.httpRequestBodyBytes, now := r.now)
    && AssuranceRank(r.providerAssurance) >= AssuranceRank(q.providerAssurance)
    && (q.mfaVerified ==> r.mfaVerified)
    && (r.rawExportRequested ==> q.rawExportRequested)
    && (r.httpRequestBodyBytes.Some? ==>
          q.httpRequestBodyBytes.Some? && r.httpRequestBodyBytes.value <= q.httpRequestBodyBytes.value)
    && r.now <= q.now
  }

  lemma EasingKeepsAllow(policies: seq<AccessPolicy>, q: AccessRequest, r: AccessRequest)
    requires Eases(q, r) && Evaluate(policies, q).decision == Allow
    ensures Evaluate(policies, r).decision == Allow
  {
    EvaluateExact(policies, q);
    EvaluateExact(policies, r);
    var p :| p in policies && Grants(p, q);
    assert GrantsHttp(p, q) ==> GrantsHttp(p, r);
    assert Grants(p, r);
  }
}
