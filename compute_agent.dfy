/**
 * The compute agent service of a utility VM (internal/uvm/computeagent.go):
 * its per-VM address, the classification of the serve loop's final error,
 * and the AddNIC/DeleteNIC handlers that look an endpoint up by name and
 * hand it to the utility VM.
 */
module ComputeAgent {
  import opened Wrappers
  import opened Strings

  /** A Go error value: a message, possibly wrapped with context by errors.Wrapf. */
  datatype Error =
    | Error(text: string)
    | Wrapped(context: string, cause: Error)

  /** err.Error(): the context of each wrapper, then the message of what it wraps. */
  function Message(e: Error): string
  {
    match e
    case Error(t) => t
    case Wrapped(c, cause) => c + ": " + Message(cause)
  }

  // ---------------------------------------------------------------------
  // Address

  /** ComputeAgentAddrFmt with its `%s` verb removed: the named pipe prefix. */
  const ComputeAgentAddrPrefix := "\\\\.\\pipe\\computeagent-"

  /** fmt.Sprintf(ComputeAgentAddrFmt, vmID) */
  function ComputeAgentAddr(vmId: string): (addr: string)
    ensures HasPrefix(addr, ComputeAgentAddrPrefix)
    ensures addr[|ComputeAgentAddrPrefix|..] == vmId
  {
    ComputeAgentAddrPrefix + vmId
  }

  /** Distinct utility VMs are served on distinct pipes. */
  lemma ComputeAgentAddrInjective(a: string, b: string)
    ensures ComputeAgentAddr(a) == ComputeAgentAddr(b) ==> a == b
  {
  }

  // ---------------------------------------------------------------------
  // Serve error classification

  const ClosedConnectionText := "use of closed network connection"

  /** The serve loop's error after a closed listener: reported as a clean stop. */
  predicate IsClosedConnection(e: Error)
  {
    Contains(Message(e), ClosedConnectionText)
  }

  /**
   * trapClosedConnErr: no error, and the closed-connection error, become no
   * error; every other error is kept as it is.
   */
  function TrapClosedConnErr(err: Option<Error>): (r: Option<Error>)
    ensures r.None? <==> err.None? || IsClosedConnection(err.value)
    ensures r.Some? ==> r == err
  {
    if err.None? || IsClosedConnection(err.value) then None else err
  }

  /** A trapped error is never trapped again: the classifier is idempotent. */
  lemma TrapClosedConnErrIdempotent(err: Option<Error>)
    ensures TrapClosedConnErr(TrapClosedConnErr(err)) == TrapClosedConnErr(err)
  {
  }

  /** An error that merely wraps the closed-connection error is trapped as well. */
  lemma WrappedClosedConnectionIsTrapped(context: string, cause: Error)
    requires IsClosedConnection(cause)
    ensures TrapClosedConnErr(Some(Wrapped(context, cause))) == None
  {
    var m := Message(cause);
    var i := ContainsImpliesOccurs(m, ClosedConnectionText);
    var w := context + ": " + m;
    assert w[|context + ": "| + i..|context + ": "| + i + |ClosedConnectionText|] == m[i..i + |ClosedConnectionText|];
    assert OccursAt(w, ClosedConnectionText, |context + ": "| + i);
    OccursImpliesContains(w, ClosedConnectionText, |context + ": "| + i);
  }

  // ---------------------------------------------------------------------
  // AddNIC and DeleteNIC

  datatype Namespace = Namespace(id: string)
  datatype Endpoint = Endpoint(id: string, name: string, namespace: Namespace)

  datatype AddNicRequest = AddNicRequest(containerId: string, nicId: string, endpointName: string)
  datatype DeleteNicRequest = DeleteNicRequest(containerId: string, nicId: string, endpointName: string)

  /** A call the agent makes on its utility VM. */
  datatype UvmCall =
    | AddEndpointToNs(namespaceId: string, nicId: string, endpoint: Endpoint)
    | RemoveEndpointFromNs(namespaceId: string, endpoint: Endpoint)

  /** The error a failed endpoint lookup is reported with. */
  function LookupError(endpointName: string, cause: Error): (e: Error)
    ensures e.Wrapped? && e.cause == cause
    ensures Contains(Message(e), endpointName)
  {
    var e := Wrapped("failed to get endpoint with name \"" + endpointName + "\"", cause);
    assert Message(e) == "failed to get endpoint with name \"" + endpointName + ("\"" + ": " + Message(cause));
    ContainsPart("failed to get endpoint with name \"", endpointName, "\"" + ": " + Message(cause));
    e
  }

  /**
   * computeAgent: the handlers of one utility VM. The endpoint lookup and the
   * two utility VM operations are given; each utility VM operation answers
   * as a function of the calls made on that VM before it.
   */
  class ComputeAgent {
    const getEndpointByName: string -> Result<Endpoint, Error>
    const addEndpointToNs: (seq<UvmCall>, string, string, Endpoint) -> Option<Error>
    const removeEndpointFromNs: (seq<UvmCall>, string, Endpoint) -> Option<Error>

    /** Every call the handlers made on the utility VM, oldest first. */
    var uvmCalls: seq<UvmCall>

    constructor (getEndpointByName: string -> Result<Endpoint, Error>,
                 addEndpointToNs: (seq<UvmCall>, string, string, Endpoint) -> Option<Error>,
                 removeEndpointFromNs: (seq<UvmCall>, string, Endpoint) -> Option<Error>)
      ensures this.getEndpointByName == getEndpointByName
      ensures this.addEndpointToNs == addEndpointToNs
      ensures this.removeEndpointFromNs == removeEndpointFromNs
      ensures uvmCalls == []
    {
      this.getEndpointByName := getEndpointByName;
      this.addEndpointToNs := addEndpointToNs;
      this.removeEndpointFromNs := removeEndpointFromNs;
      uvmCalls := [];
    }

    /**
     * AddNIC: a failed lookup is reported wrapped with the endpoint name and
     * nothing is asked of the utility VM; otherwise the endpoint is added to
     * its own namespace under the requested NIC id, and that call's error,
     * if any, is returned unchanged.
     */
    method AddNic(req: AddNicRequest) returns (r: Result<(), Error>)
      modifies this
      ensures getEndpointByName(req.endpointName).Err? ==>
                && r == Err(LookupError(req.endpointName, getEndpointByName(req.endpointName).error))
                && uvmCalls == old(uvmCalls)
      ensures getEndpointByName(req.endpointName).Ok? ==>
                var ep := getEndpointByName(req.endpointName).value;
                && uvmCalls == old(uvmCalls) + [AddEndpointToNs(ep.namespace.id, req.nicId, ep)]
                && (match addEndpointToNs(old(uvmCalls), ep.namespace.id, req.nicId, ep)
                    case Some(e) => r == Err(e)
                    case None => r == Ok(()))
    {
      var endpoint := getEndpointByName(req.endpointName);
      if endpoint.Err? {
        return Err(LookupError(req.endpointName, endpoint.error));
      }
      var ep := endpoint.value;
      var err := addEndpointToNs(uvmCalls, ep.namespace.id, req.nicId, ep);
      uvmCalls := uvmCalls + [AddEndpointToNs(ep.namespace.id, req.nicId, ep)];
      if err.Some? {
        return Err(err.value);
      }
      return Ok(());
    }

    /**
     * DeleteNIC: the same lookup and wrapping; then the endpoint is removed
     * from its namespace. The requested NIC id is not passed on.
     */
    method DeleteNic(req: DeleteNicRequest) returns (r: Result<(), Error>)
      modifies this
      ensures getEndpointByName(req.endpointName).Err? ==>
                && r == Err(LookupError(req.endpointName, getEndpointByName(req.endpointName).error))
                && uvmCalls == old(uvmCalls)
      ensures getEndpointByName(req.endpointName).Ok? ==>
                var ep := getEndpointByName(req.endpointName).value;
                && uvmCalls == old(uvmCalls) + [RemoveEndpointFromNs(ep.namespace.id, ep)]
                && (match removeEndpointFromNs(old(uvmCalls), ep.namespace.id, ep)
                    case Some(e) => r == Err(e)
                    case None => r == Ok(()))
    {
      var endpoint := getEndpointByName(req.endpointName);
      if endpoint.Err? {
        return Err(LookupError(req.endpointName, endpoint.error));
      }
      var ep := endpoint.value;
      var err := removeEndpointFromNs(uvmCalls, ep.namespace.id, ep);
      uvmCalls := uvmCalls + [RemoveEndpointFromNs(ep.namespace.id, ep)];
      if err.Some? {
        return Err(err.value);
      }
      return Ok(());
    }
  }
}
