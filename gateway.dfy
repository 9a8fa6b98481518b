/**
 * LineMineCraft and the `line` webhook entry point: one LINE message event
 * is authenticated, matched against the command keywords and turned into at
 * most one controller action, whose result is reported back as a reply.
 */
module Gateway {
  import opened Wrappers
  import opened Config
  import opened Text
  import opened Server

  /**
   * The base64 text of the HMAC-SHA256 digest of a body keyed by a secret.
   * The digest is not modelled: handlers take it as a parameter and only
   * compare its result for equality.
   */
  type Signer = (string, seq<bv8>) -> string

  /**
   * What the handler reads out of the webhook request: the raw body, the
   * `x-line-signature` header (absent is None) and, from the first event,
   * the sender, the reply token, the event type and the message text.
   */
  datatype Request = Request(
    body: seq<bv8>,
    signature: Option<string>,
    userId: string,
    replyToken: string,
    kind: string,
    text: string)

  /** The Python exceptions the handler can raise on its own. */
  datatype Exception = KeyError(key: string) | FormatError

  /** How a Python expression or call ends: with a value, or by raising. */
  datatype Outcome<T> = Return(value: T) | Raised(exception: Exception)

  /** The command a message text names. */
  datatype Command = Start | Stop | ScaleUp | ScaleDown | Unsupported

  /** `DICTIONARY[key]`, which raises KeyError for a key the table lacks. */
  function Lookup(key: string): (r: Outcome<string>)
    ensures r.Return? <==> key in DICTIONARY
    ensures r.Return? ==> r.value == DICTIONARY[key]
    ensures r.Raised? ==> r.exception == KeyError(key)
  {
    if key in DICTIONARY then Return(DICTIONARY[key]) else Raised(KeyError(key))
  }

  /**
   * `DICTIONARY["started"] + DICTIONARY["machineType"].format(name)`,
   * evaluated left to right; with this table neither lookup nor the format
   * raises, and the reply is the started text, the caption and the name.
   */
  function StartedMessage(name: string): (r: Outcome<string>)
    ensures r == Return(DICTIONARY["started"] + MACHINE_TYPE_CAPTION + name)
  {
    MachineTypeTemplate(name);
    assert DICTIONARY["started"] + (MACHINE_TYPE_CAPTION + name) == DICTIONARY["started"] + MACHINE_TYPE_CAPTION + name;
    match Lookup("started")
    case Raised(e) => Raised(e)
    case Return(started) =>
      match Lookup("machineType")
      case Raised(e) => Raised(e)
      case Return(template) =>
        match Format(template, name)
        case None => Raised(FormatError)
        case Some(s) => Return(started + s)
  }

  /** A statement that ended as `done`, followed by one that yields `v`. */
  function Then<T>(done: Outcome<()>, v: T): Outcome<T>
  {
    match done
    case Raised(e) => Raised(e)
    case Return(_) => Return(v)
  }

  /** A call whose value is discarded. */
  function Discard<T>(o: Outcome<T>): Outcome<()>
  {
    match o
    case Raised(e) => Raised(e)
    case Return(_) => Return(())
  }

  /** The request carries the signature of its own body. */
  predicate Authentic(request: Request, sign: Signer): (b: bool)
    ensures b <==> request.signature.Some? && request.signature.value == sign(CHANNEL_SECRET, request.body)
  {
    request.signature == Some(sign(CHANNEL_SECRET, request.body))
  }

  /** The keyword-to-command chain of the handler, tried in the order start, stop, scale up, scale down. */
  function Parse(text: string): (c: Command)
    ensures c == Start <==> text == DICTIONARY["start"]
    ensures c == Stop <==> text == DICTIONARY["stop"]
    ensures c == ScaleUp <==> text == DICTIONARY["scaleUp"]
    ensures c == ScaleDown <==> text == DICTIONARY["scaleDown"]
  {
    KeywordsDistinct();
    if text == DICTIONARY["start"] then Start
    else if text == DICTIONARY["stop"] then Stop
    else if text == DICTIONARY["scaleUp"] then ScaleUp
    else if text == DICTIONARY["scaleDown"] then ScaleDown
    else Unsupported
  }

  /** The keyword that names a command. */
  function Keyword(c: Command): string
    requires c != Unsupported
  {
    match c
    case Start => DICTIONARY["start"]
    case Stop => DICTIONARY["stop"]
    case ScaleUp => DICTIONARY["scaleUp"]
    case ScaleDown => DICTIONARY["scaleDown"]
  }

  /** Every keyword is read back as its own command, and only keywords name commands. */
  lemma ParseKeyword(c: Command, text: string)
    requires c != Unsupported
    ensures Parse(Keyword(c)) == c
    ensures Parse(text) == c <==> text == Keyword(c)
  {
  }

  class LineMineCraft {
    const body: seq<bv8>
    const userId: string
    const replyToken: string
    const kind: string
    const text: string
    const signature: Option<string>
    const server: MineCraftServer
    const sign: Signer
    /** The messages sent to `replyToken`, in order. */
    var replies: seq<string>

    constructor (request: Request, server: MineCraftServer, sign: Signer)
      ensures body == request.body && userId == request.userId && replyToken == request.replyToken
      ensures kind == request.kind && text == request.text && signature == request.signature
      ensures this.server == server && this.sign == sign && replies == []
    {
      body := request.body;
      userId := request.userId;
      replyToken := request.replyToken;
      kind := request.kind;
      text := request.text;
      signature := request.signature;
      this.server := server;
      this.sign := sign;
      replies := [];
    }

    /** Sends one message to the reply token. */
    method Response(message: string)
      modifies this`replies
      ensures replies == old(replies) + [message]
    {
      replies := replies + [message];
    }

    /** `self.response(<message>)`: when evaluating the argument raises, nothing is sent. */
    method RespondWith(message: Outcome<string>) returns (r: Outcome<()>)
      modifies this`replies
      ensures r == Discard(message)
      ensures replies == old(replies) + (if message.Return? then [message.value] else [])
    {
      if message.Return? {
        Response(message.value);
        r := Return(());
      } else {
        r := Raised(message.exception);
      }
    }

    /**
     * Checks the signature, then the sender.  A bad signature asks for the
     * "NotAuthorized" reply, a key the table lacks, so it raises KeyError and
     * sends nothing; an unlisted sender is turned away silently.
     */
    method Auth() returns (r: Outcome<bool>)
      modifies this`replies
      ensures Some(sign(CHANNEL_SECRET, body)) != signature ==> r == Raised(KeyError("NotAuthorized"))
      ensures Some(sign(CHANNEL_SECRET, body)) == signature ==> r == Return(userId in USER_IDS)
      ensures replies == old(replies)
    {
      if Some(sign(CHANNEL_SECRET, body)) != signature {
        var sent := RespondWith(Lookup("NotAuthorized"));
        return Then(sent, false);
      }
      if userId !in USER_IDS {
        return Return(false);
      }
      return Return(true);
    }

    /** Starts the server and reports "started" with the machine type, or "already started". */
    method Start() returns (r: Outcome<bool>)
      modifies this`replies, server`calls
      ensures r == Return(server.instance.status == TERMINATED)
      ensures server.calls == old(server.calls) + (if r.value then [StartInstance] else [])
      ensures replies == old(replies) + [
        if r.value then DICTIONARY["started"] + MACHINE_TYPE_CAPTION + server.GetMachineTypeStr()
        else DICTIONARY["alreadyStarted"]]
    {
      var ret := server.Start();
      var sent;
      if ret {
        sent := RespondWith(StartedMessage(server.GetMachineTypeStr()));
      } else {
        sent := RespondWith(Lookup("alreadyStarted"));
      }
      return Then(sent, ret);
    }

    /**
     * Stops the server and reports "stopped"; off the default tier it then
     * scales down.  The snapshot still reads RUNNING at that point, so the
     * resize is refused, issues no update, and its reply key
     * "alreadyStarted!" raises KeyError.  A refused stop asks for
     * "alreadyStopped!", which raises KeyError as well.
     */
    method Stop() returns (r: Outcome<bool>)
      modifies this`replies, server`instance, server`calls
      ensures server.instance == old(server.instance)
      ensures old(server.instance.status) == RUNNING ==>
        && server.calls == old(server.calls) + [StopInstance]
        && replies == old(replies) + [DICTIONARY["stopped"]]
        && r == (if server.IsMachineTypeDefault() then Return(true) else Raised(KeyError("alreadyStarted!")))
      ensures old(server.instance.status) != RUNNING ==>
        && server.calls == old(server.calls)
        && replies == old(replies)
        && r == Raised(KeyError("alreadyStopped!"))
    {
      var ret := server.Stop();
      var sent;
      if ret {
        sent := RespondWith(Lookup("stopped"));
        if sent.Return? && !server.IsMachineTypeDefault() {
          var scaled := Scale(false);
          sent := Discard(scaled);
        }
      } else {
        sent := RespondWith(Lookup("alreadyStopped!"));
      }
      return Then(sent, ret);
    }

    /**
     * Resizes the server and reports "changed"; a refused resize asks for
     * "alreadyStarted!", which raises KeyError.
     */
    method Scale(up: bool) returns (r: Outcome<bool>)
      modifies this`replies, server`instance, server`calls
      ensures server.instance == AfterScale(old(server.instance), up)
      ensures server.calls == old(server.calls) + ScaleCalls(old(server.instance), up)
      ensures old(server.instance.status) == TERMINATED ==>
        r == Return(true) && replies == old(replies) + [DICTIONARY["changed"]]
      ensures old(server.instance.status) != TERMINATED ==>
        r == Raised(KeyError("alreadyStarted!")) && replies == old(replies)
    {
      var ret := server.Scale(up);
      var sent;
      if ret {
        sent := RespondWith(Lookup("changed"));
      } else {
        sent := RespondWith(Lookup("alreadyStarted!"));
      }
      return Then(sent, ret);
    }
  }

  /**
   * The webhook: builds the controller around the fetched instance and the
   * handler around the request, authenticates, and for a message event runs
   * the command its text names.  Returns the provider calls issued, the
   * replies sent and how the handler ended.
   */
  method Line(request: Request, fetched: Instance, sign: Signer)
    returns (calls: seq<Call>, replies: seq<string>, r: Outcome<()>)
    ensures |calls| <= 1 && |replies| <= 1
    ensures !Authentic(request, sign) ==>
      calls == [] && replies == [] && r == Raised(KeyError("NotAuthorized"))
    ensures Authentic(request, sign) && (request.userId !in USER_IDS || request.kind != "message") ==>
      calls == [] && replies == [] && r == Return(())
    ensures Authentic(request, sign) && request.userId in USER_IDS && request.kind == "message" ==>
      match Parse(request.text)
      case Start =>
        if fetched.status == TERMINATED then
          calls == [StartInstance] && r == Return(()) &&
          replies == [DICTIONARY["started"] + MACHINE_TYPE_CAPTION + AfterLast(fetched.machineType, '/')]
        else
          calls == [] && replies == [DICTIONARY["alreadyStarted"]] && r == Return(())
      case Stop =>
        if fetched.status == RUNNING then
          calls == [StopInstance] && replies == [DICTIONARY["stopped"]] &&
          r == (if AfterLast(fetched.machineType, '/') == MACHINE_TYPE_DICT["default"] then Return(())
                else Raised(KeyError("alreadyStarted!")))
        else
          calls == [] && replies == [] && r == Raised(KeyError("alreadyStopped!"))
      case ScaleUp =>
        calls == ScaleCalls(fetched, true) &&
        if fetched.status == TERMINATED then replies == [DICTIONARY["changed"]] && r == Return(())
        else replies == [] && r == Raised(KeyError("alreadyStarted!"))
      case ScaleDown =>
        calls == ScaleCalls(fetched, false) &&
        if fetched.status == TERMINATED then replies == [DICTIONARY["changed"]] && r == Return(())
        else replies == [] && r == Raised(KeyError("alreadyStarted!"))
      case Unsupported =>
        calls == [] && replies == [DICTIONARY["notSupportedFunction"]] && r == Return(())
  {
    var server := new MineCraftServer(PROJECT, ZONE, INSTANCE_NAME, fetched);
    var gateway := new LineMineCraft(request, server, sign);
    var auth := gateway.Auth();
    match auth {
    case Raised(e) =>
      r := Raised(e);
    case Return(ok) =>
      r := Return(());
      if ok && gateway.kind == "message" {
        match Parse(gateway.text) {
        case Start =>
          var done := gateway.Start();
          r := Discard(done);
        case Stop =>
          var done := gateway.Stop();
          r := Discard(done);
        case ScaleUp =>
          var done := gateway.Scale(true);
          r := Discard(done);
        case ScaleDown =>
          var done := gateway.Scale(false);
          r := Discard(done);
        case Unsupported =>
          r := gateway.RespondWith(Lookup("notSupportedFunction"));
        }
      }
    }
    calls, replies := server.calls, gateway.replies;
  }
}
