/**
 * The pipeline the dispatcher hands to the middleware runner: the resolved
 * middleware names followed, as the last link, by a terminal handler. The runner
 * itself is a separate library; it is modelled here only far enough to state the
 * onion rule for middleware that either passes the request on or answers it.
 */
module Pipeline {
  import opened Wrappers
  import opened Http

  /** The innermost link: a ready-made synthetic response, or the matched route's handler. */
  datatype Terminal = Respond(response: Response) | Invoke(handler: Handler, vars: map<string, string>)

  /** What the dispatcher produces: the middleware to run, and the terminal handler. */
  datatype Plan = Plan(middlewares: seq<string>, terminal: Terminal)

  datatype Link = Middleware(name: string) | Final(terminal: Terminal)

  /** The runner's list: every middleware in order, with the terminal handler appended last. */
  function Links(p: Plan): (links: seq<Link>)
    ensures |links| == |p.middlewares| + 1
    ensures links[|p.middlewares|] == Final(p.terminal)
    ensures forall i :: 0 <= i < |p.middlewares| ==> links[i] == Middleware(p.middlewares[i])
  {
    seq(|p.middlewares|, i requires 0 <= i < |p.middlewares| => Middleware(p.middlewares[i])) + [Final(p.terminal)]
  }

  /** An abstract middleware either hands the request to the next link or answers it itself. */
  datatype Behaviour = PassOn | ShortCircuit(response: Response)

  /** What one link does with the request: the response when it answers, nothing when it passes on. */
  function Answer(l: Link, behave: string -> Behaviour,
                  invoke: (Handler, map<string, string>) -> Response): Option<Response>
  {
    match l
    case Final(Respond(r)) => Some(r)
    case Final(Invoke(h, vars)) => Some(invoke(h, vars))
    case Middleware(name) =>
      match behave(name)
      case ShortCircuit(r) => Some(r)
      case PassOn => None
  }

  /**
   * Runs the links front to back; the first link that answers decides the
   * response, and a run in which no link answers yields an empty response.
   */
  function Run(links: seq<Link>, behave: string -> Behaviour,
               invoke: (Handler, map<string, string>) -> Response): (r: Response)
    ensures forall i :: 0 <= i < |links| && Answer(links[i], behave, invoke).Some?
                          && (forall j :: 0 <= j < i ==> Answer(links[j], behave, invoke).None?) ==>
              r == Answer(links[i], behave, invoke).value
    ensures (forall i :: 0 <= i < |links| ==> Answer(links[i], behave, invoke).None?) ==> r == EmptyResponse
  {
    if links == [] then EmptyResponse
    else match links[0]
      case Final(Respond(r)) => r
      case Final(Invoke(h, vars)) => invoke(h, vars)
      case Middleware(name) =>
        match behave(name)
        case ShortCircuit(r) => r
        case PassOn =>
          assert forall i :: 1 <= i < |links| ==> links[1..][i - 1] == links[i];
          Run(links[1..], behave, invoke)
  }

  /** The response the terminal handler produces. */
  function TerminalResponse(t: Terminal, invoke: (Handler, map<string, string>) -> Response): Response
  {
    match t
    case Respond(r) => r
    case Invoke(h, vars) => invoke(h, vars)
  }

  /** When every middleware passes the request on, the terminal handler answers. */
  lemma {:induction false} AllPassOn(p: Plan, behave: string -> Behaviour,
                                     invoke: (Handler, map<string, string>) -> Response)
    requires forall i :: 0 <= i < |p.middlewares| ==> behave(p.middlewares[i]) == PassOn
    ensures Run(Links(p), behave, invoke) == TerminalResponse(p.terminal, invoke)
    decreases |p.middlewares|
  {
    if p.middlewares != [] {
      var rest := Plan(p.middlewares[1..], p.terminal);
      assert Links(p)[1..] == Links(rest);
      AllPassOn(rest, behave, invoke);
    }
  }

  /**
   * A middleware that answers without passing on decides the response: the
   * middleware after it and the terminal handler never run.
   */
  lemma {:induction false} FirstShortCircuitWins(p: Plan, behave: string -> Behaviour,
                                                 invoke: (Handler, map<string, string>) -> Response, k: nat)
    requires k < |p.middlewares| && behave(p.middlewares[k]).ShortCircuit?
    requires forall i :: 0 <= i < k ==> behave(p.middlewares[i]) == PassOn
    ensures Run(Links(p), behave, invoke) == behave(p.middlewares[k]).response
    decreases k
  {
    if k > 0 {
      var rest := Plan(p.middlewares[1..], p.terminal);
      assert Links(p)[1..] == Links(rest);
      FirstShortCircuitWins(rest, behave, invoke, k - 1);
    }
  }
}
