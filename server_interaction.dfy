/** The server-interaction example: the model shows one branch of a remote repository,
    fetched when the application mounts, and a button posts a fixed contact message.
    Network access is abstract: a transport answers a request with a response or a
    `FetchError`, and decoders turn a response into a typed body or a `FetchError`. */
module ServerInteraction {
  import opened Wrappers

  datatype Commit = Commit(sha: string)
  datatype Branch = Branch(name: string, commit: Commit)

  datatype SendMessageRequestBody = SendMessageRequestBody(name: string, email: string, message: string)
  datatype SendMessageResponseBody = SendMessageResponseBody(success: bool)

  /** The fetch library's error, kept opaque. */
  datatype FetchError = FetchError(description: string)

  /** An HTTP response, kept opaque. */
  datatype Response = Response(body: string)

  datatype HttpMethod = Get | Post

  /** A request; the resource locator is a constant of each task and is not modelled. */
  datatype Request = Request(verb: HttpMethod, body: Option<SendMessageRequestBody>)

  /** The outside world as the two tasks see it. */
  datatype Network = Network(
    transport: Request -> Result<Response, FetchError>,
    decodeBranch: Response -> Result<Branch, FetchError>,
    decodeAck: Response -> Result<SendMessageResponseBody, FetchError>)

  datatype Msg =
    | RepositoryInfoFetched(fetched: Result<Branch, FetchError>)
    | SendMessage
    | MessageSent(sent: Result<SendMessageResponseBody, FetchError>)

  /** A command handed to `perform_cmd`: which of the two tasks to run. */
  datatype Cmd = FetchRepositoryInfoCmd | SendMessageCmd

  /** What `update` writes to the console with `log!` and `error!`. */
  datatype LogEntry =
    | ResponseData(response: SendMessageResponseBody)
    | FetchRepositoryInfoFailed(error: FetchError)
    | SendMessageFailed(error: FetchError)

  const Loading: string := "Loading..."

  /** The repository request: a plain GET without a body. */
  const RepositoryRequest: Request := Request(Get, None)

  /** The fixed contact payload of `send_message`. */
  const ContactMessage: SendMessageRequestBody :=
    SendMessageRequestBody("Mark Watney", "mark@crypt.kk", "I wanna be like Iron Man")

  /** The contact request: a POST whose JSON body is the contact payload. */
  const ContactRequest: Request := Request(Post, Some(ContactMessage))

  // ---------- the two tasks ----------

  /** The early-return chain both tasks share: a transport error is returned as is and the
      response is never decoded; otherwise the outcome is that of decoding the response. */
  function Chain<T>(fetched: Result<Response, FetchError>, decode: Response -> Result<T, FetchError>): (r: Result<T, FetchError>)
    ensures fetched.Err? ==> r == Err(fetched.error)
    ensures fetched.Ok? ==> r == decode(fetched.value)
    ensures r.Ok? <==> fetched.Ok? && decode(fetched.value).Ok?
  {
    match fetched
    case Err(err) => Err(err)
    case Ok(response) => decode(response)
  }

  /** `fetch_repository_info`: fetches the branch and folds every outcome into exactly one
      `RepositoryInfoFetched` message. */
  function FetchRepositoryInfoTask(net: Network): (m: Msg)
    ensures m.RepositoryInfoFetched?
    ensures net.transport(RepositoryRequest).Err? ==>
      m.fetched == Err(net.transport(RepositoryRequest).error)
    ensures net.transport(RepositoryRequest).Ok? ==>
      m.fetched == net.decodeBranch(net.transport(RepositoryRequest).value)
    ensures m.fetched.Ok? <==>
      net.transport(RepositoryRequest).Ok? && net.decodeBranch(net.transport(RepositoryRequest).value).Ok?
  {
    RepositoryInfoFetched(Chain(net.transport(RepositoryRequest), net.decodeBranch))
  }

  /** `send_message`: posts the contact payload and folds every outcome into exactly one
      `MessageSent` message. */
  function SendMessageTask(net: Network): (m: Msg)
    ensures m.MessageSent?
    ensures net.transport(ContactRequest).Err? ==>
      m.sent == Err(net.transport(ContactRequest).error)
    ensures net.transport(ContactRequest).Ok? ==>
      m.sent == net.decodeAck(net.transport(ContactRequest).value)
    ensures m.sent.Ok? <==>
      net.transport(ContactRequest).Ok? && net.decodeAck(net.transport(ContactRequest).value).Ok?
  {
    MessageSent(Chain(net.transport(ContactRequest), net.decodeAck))
  }

  /** Running a command yields exactly one message, of the kind that belongs to it. */
  function Perform(cmd: Cmd, net: Network): (m: Msg)
    ensures cmd.FetchRepositoryInfoCmd? <==> m.RepositoryInfoFetched?
    ensures cmd.SendMessageCmd? <==> m.MessageSent?
  {
    match cmd
    case FetchRepositoryInfoCmd => FetchRepositoryInfoTask(net)
    case SendMessageCmd => SendMessageTask(net)
  }

  // ---------- update ----------

  /** The effect of one `update` call: the new branch, whether rendering is skipped, the
      commands performed and what is written to the console. */
  datatype Transition = Transition(branch: Branch, skip: bool, cmds: seq<Cmd>, log: Option<LogEntry>)

  /** `update` on the value of the model. */
  function Reduce(branch: Branch, msg: Msg): Transition
  {
    match msg
    case RepositoryInfoFetched(Ok(b)) => Transition(b, false, [], None)
    case RepositoryInfoFetched(Err(e)) => Transition(branch, true, [], Some(FetchRepositoryInfoFailed(e)))
    case SendMessage => Transition(branch, true, [SendMessageCmd], None)
    case MessageSent(Ok(body)) => Transition(branch, true, [], Some(ResponseData(body)))
    case MessageSent(Err(e)) => Transition(branch, true, [], Some(SendMessageFailed(e)))
  }

  /** The orders handed to `update`: the skip flag and the commands performed so far. */
  class Orders {
    var skipped: bool
    var cmds: seq<Cmd>

    /** The fresh orders the runtime passes to each `update` call. */
    constructor ()
      ensures !skipped && cmds == []
    {
      skipped := false;
      cmds := [];
    }

    /** `skip()`: no re-render after this update. */
    method Skip()
      modifies this
      ensures skipped && cmds == old(cmds)
    {
      skipped := true;
    }

    /** `perform_cmd(...)`: the command is queued after those already there. */
    method PerformCmd(cmd: Cmd)
      modifies this
      ensures cmds == old(cmds) + [cmd] && skipped == old(skipped)
    {
      cmds := cmds + [cmd];
    }
  }

  class Model {
    var branch: Branch

    /** `Model::default()`: the "Loading..." placeholder branch. */
    constructor Default()
      ensures branch.name == Loading && branch.commit.sha == Loading
    {
      branch := Branch(Loading, Commit(Loading));
    }

    /** `update`: assigns the branch in place and records its effects in `orders`; the
        console entry it writes is returned. */
    method Update(msg: Msg, orders: Orders) returns (entry: Option<LogEntry>)
      modifies this, orders
      ensures var t := Reduce(old(branch), msg);
        branch == t.branch && orders.skipped == (old(orders.skipped) || t.skip)
        && orders.cmds == old(orders.cmds) + t.cmds && entry == t.log
      ensures msg.RepositoryInfoFetched? && msg.fetched.Ok? ==>
        branch == msg.fetched.value && orders.skipped == old(orders.skipped)
        && orders.cmds == old(orders.cmds) && entry == None
      ensures msg.RepositoryInfoFetched? && msg.fetched.Err? ==>
        branch == old(branch) && orders.skipped && orders.cmds == old(orders.cmds)
        && entry == Some(FetchRepositoryInfoFailed(msg.fetched.error))
      ensures msg.SendMessage? ==>
        branch == old(branch) && orders.skipped && orders.cmds == old(orders.cmds) + [SendMessageCmd]
        && entry == None
      ensures msg.MessageSent? ==>
        branch == old(branch) && orders.skipped && orders.cmds == old(orders.cmds) && entry.Some?
    {
      match msg {
        case RepositoryInfoFetched(Ok(b)) =>
          branch := b;
          entry := None;
        case RepositoryInfoFetched(Err(fetchError)) =>
          entry := Some(FetchRepositoryInfoFailed(fetchError));
          orders.Skip();
        case SendMessage =>
          entry := None;
          orders.Skip();
          orders.PerformCmd(SendMessageCmd);
        case MessageSent(Ok(responseData)) =>
          entry := Some(ResponseData(responseData));
          orders.Skip();
        case MessageSent(Err(failReason)) =>
          entry := Some(SendMessageFailed(failReason));
          orders.Skip();
      }
    }
  }

  /** `after_mount`: performs the repository fetch and mounts the default model. */
  method AfterMount(orders: Orders) returns (model: Model)
    modifies orders
    ensures fresh(model)
    ensures model.branch.name == Loading && model.branch.commit.sha == Loading
    ensures orders.cmds == old(orders.cmds) + [FetchRepositoryInfoCmd] && orders.skipped == old(orders.skipped)
  {
    orders.PerformCmd(FetchRepositoryInfoCmd);
    model := new Model.Default();
  }

  // ---------- message sequences ----------

  /** The branch, the commands performed and the console entries after a sequence of updates. */
  datatype Session = Session(branch: Branch, performed: seq<Cmd>, log: seq<LogEntry>)

  /** `update` applied to every message of `msgs`, in order, starting from `branch`. */
  function Run(branch: Branch, msgs: seq<Msg>): Session
    decreases |msgs|
  {
    if msgs == [] then Session(branch, [], [])
    else
      var s := Run(branch, msgs[..|msgs| - 1]);
      var t := Reduce(s.branch, msgs[|msgs| - 1]);
      Session(t.branch, s.performed + t.cmds, s.log + match t.log case Some(e) => [e] case None => [])
  }

  /** Whether `msg` delivers a successfully fetched branch. */
  predicate IsFetchedBranch(msg: Msg)
  {
    msg.RepositoryInfoFetched? && msg.fetched.Ok?
  }

  /** The branch shown is the one of the last successful fetch ... */
  lemma {:induction false} RunBranchLatest(branch: Branch, msgs: seq<Msg>, i: nat)
    requires i < |msgs| && IsFetchedBranch(msgs[i])
    requires forall j :: i < j < |msgs| ==> !IsFetchedBranch(msgs[j])
    ensures Run(branch, msgs).branch == msgs[i].fetched.value
  {
    if i < |msgs| - 1 {
      RunBranchLatest(branch, msgs[..|msgs| - 1], i);
    }
  }

  /** ... and the starting one when no fetch has succeeded: a failed fetch changes nothing. */
  lemma {:induction false} RunBranchKept(branch: Branch, msgs: seq<Msg>)
    requires forall j :: 0 <= j < |msgs| ==> !IsFetchedBranch(msgs[j])
    ensures Run(branch, msgs).branch == branch
  {
    if msgs != [] {
      RunBranchKept(branch, msgs[..|msgs| - 1]);
    }
  }

  /** Every `SendMessage` performs exactly one send command and nothing else performs one. */
  lemma {:induction false} RunPerformed(branch: Branch, msgs: seq<Msg>)
    ensures |Run(branch, msgs).performed| == multiset(msgs)[SendMessage]
    ensures forall k :: 0 <= k < |Run(branch, msgs).performed| ==> Run(branch, msgs).performed[k] == SendMessageCmd
  {
    if msgs != [] {
      var n := |msgs| - 1;
      RunPerformed(branch, msgs[..n]);
      assert msgs == msgs[..n] + [msgs[n]];
    }
  }

  /** n consecutive `SendMessage`s perform n send commands, log nothing and keep the branch. */
  lemma {:induction false} RunSendMessages(branch: Branch, n: nat)
    ensures Run(branch, seq(n, _ => SendMessage)) == Session(branch, seq(n, _ => SendMessageCmd), [])
  {
    if n > 0 {
      RunSendMessages(branch, n - 1);
      assert seq(n, _ => SendMessage)[..n - 1] == seq(n - 1, _ => SendMessage);
      assert seq(n, _ => SendMessageCmd) == seq(n - 1, _ => SendMessageCmd) + [SendMessageCmd];
    }
  }

  /** Reordering any run changes neither how many nor which commands are performed. */
  lemma {:induction false} ReorderKeepsPerformed(branch: Branch, arrived: seq<Msg>, reordered: seq<Msg>)
    requires multiset(reordered) == multiset(arrived)
    ensures Run(branch, arrived).performed == Run(branch, reordered).performed
  {
    RunPerformed(branch, arrived);
    RunPerformed(branch, reordered);
    var p, q := Run(branch, arrived).performed, Run(branch, reordered).performed;
    assert |p| == |q|;
    forall k | 0 <= k < |p|
      ensures p[k] == q[k]
    {
      assert p[k] == SendMessageCmd && q[k] == SendMessageCmd;
    }
  }

  /** A run without a successful fetch, such as a double submit followed by its two
      completions, ends with the same branch and the same commands in any order of arrival. */
  lemma {:induction false} ReorderWithoutFetchedBranch(branch: Branch, arrived: seq<Msg>, reordered: seq<Msg>)
    requires forall j :: 0 <= j < |arrived| ==> !IsFetchedBranch(arrived[j])
    requires multiset(reordered) == multiset(arrived)
    ensures Run(branch, arrived).branch == Run(branch, reordered).branch == branch
    ensures Run(branch, arrived).performed == Run(branch, reordered).performed
  {
    RunBranchKept(branch, arrived);
    forall j | 0 <= j < |reordered|
      ensures !IsFetchedBranch(reordered[j])
    {
      assert reordered[j] in multiset(arrived);
    }
    RunBranchKept(branch, reordered);
    ReorderKeepsPerformed(branch, arrived, reordered);
  }

  /** Send completions only write to the console: whatever their outcomes and the order in
      which they arrive, the branch is kept and no command is performed. */
  lemma {:induction false} MessageSentOrderIrrelevant(branch: Branch, arrived: seq<Msg>, reordered: seq<Msg>)
    requires forall j :: 0 <= j < |arrived| ==> arrived[j].MessageSent?
    requires multiset(reordered) == multiset(arrived)
    ensures Run(branch, arrived).branch == Run(branch, reordered).branch == branch
    ensures Run(branch, arrived).performed == Run(branch, reordered).performed == []
  {
    ReorderWithoutFetchedBranch(branch, arrived, reordered);
    RunPerformed(branch, arrived);
    assert SendMessage !in multiset(arrived);
  }

  /** The message a task yields never performs a further command: each fetch or send
      cycle ends after one round trip through `update`. */
  lemma CompletionPerformsNothing(branch: Branch, cmd: Cmd, net: Network)
    ensures Reduce(branch, Perform(cmd, net)).cmds == []
    ensures Reduce(branch, Perform(cmd, net)).skip <==> !IsFetchedBranch(Perform(cmd, net))
  {
  }

  /** When the transport fails, the response decoder is never consulted. */
  lemma DecodeSkippedOnTransportError<T>(e: FetchError, decode: Response -> Result<T, FetchError>, other: Response -> Result<T, FetchError>)
    ensures Chain(Err(e), decode) == Chain(Err(e), other) == Err(e)
  {
  }
}
