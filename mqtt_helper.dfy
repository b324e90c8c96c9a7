/**
 * The MQTT helper: a wrapper around the broker client that learns the company code of one
 * device from its `connected` topic and routes every incoming message to one callback.
 * The broker client is not modelled: what the helper asks of it (subscribe, publish,
 * disconnect) is recorded, in order, in `intents`.
 */
module Mqtt {
  import opened Wrappers
  import opened Topic

  /** A request the helper makes of the broker client. */
  datatype Intent =
    | Subscribe(filter: string, qos: nat)
    | Publish(topic: string, message: string, qos: nat)
    | Disconnect

  /** Quality of service 2, "exactly once delivery" (MQTT 3.1.1, section 4.3.3). */
  const ExactlyOnce: nat := 2

  /** The payload after `str(message.payload, 'utf-8')`; the decoder itself is not modelled. */
  datatype Text = Utf8(text: string) | NotUtf8

  /** Where `on_message` hands an incoming message. */
  datatype Route =
    | CompanyCodeCallback(companyCode: string, serialNumber: string)
    | MessageCallback(topic: string, payload: string)
    | PrintAndDisconnect(topic: string, payload: string)
    | Dropped
    | Raised(error: Exception)

  /** An incoming message: its topic and its payload. */
  type Message = (string, Text)

  /** A three-level topic `{company}/{serial}/connected` naming this helper's own serial number. */
  predicate IsOwnConnected(levels: seq<string>, serialNumber: Option<string>)
    ensures IsOwnConnected(levels, serialNumber) ==>
      serialNumber.Some? && |levels| == 3 && levels == [levels[0], serialNumber.value, "connected"]
  {
    |levels| == 3 && serialNumber == Some(levels[1]) && levels[2] == "connected"
  }

  /** Whether a message teaches the helper a company code: a decodable own `connected` message. */
  predicate Teaches(serialNumber: Option<string>, m: Message)
  {
    m.1.Utf8? && IsOwnConnected(Split(m.0), serialNumber)
  }

  /** The company code once `on_message` has seen `m`: the first level of an own `connected` topic. */
  function LearnedCompanyCode(companyCode: Option<string>, serialNumber: Option<string>, m: Message): (r: Option<string>)
    ensures Teaches(serialNumber, m) ==>
      r.Some? && Separator !in r.value && Join([r.value, serialNumber.value, "connected"]) == m.0
    ensures !Teaches(serialNumber, m) ==> r == companyCode
  {
    if Teaches(serialNumber, m) then
      JoinSplit(m.0);
      Some(Split(m.0)[0])
    else companyCode
  }

  /** The callback `on_message` chooses for `m`, given which callbacks the helper was built with. */
  function Routing(serialNumber: Option<string>, hasCompanyCodeCallback: bool, hasMessageCallback: bool, m: Message): (r: Route)
    ensures r.Raised? <==> m.1.NotUtf8?
    ensures r.CompanyCodeCallback? <==> Teaches(serialNumber, m) && hasCompanyCodeCallback
    ensures r.CompanyCodeCallback? ==>
      serialNumber == Some(r.serialNumber) && LearnedCompanyCode(None, serialNumber, m) == Some(r.companyCode)
    ensures r.MessageCallback? <==> m.1.Utf8? && hasMessageCallback && !(Teaches(serialNumber, m) && hasCompanyCodeCallback)
    ensures r.MessageCallback? ==> r.topic == m.0 && m.1 == Utf8(r.payload)
    ensures r.PrintAndDisconnect? <==> m.1.Utf8? && !hasMessageCallback && !Teaches(serialNumber, m)
    ensures r.Dropped? <==> Teaches(serialNumber, m) && !hasCompanyCodeCallback && !hasMessageCallback
  {
    match m.1
    case NotUtf8 => Raised(UnicodeDecodeError)
    case Utf8(payload) =>
      var levels := Split(m.0);
      if IsOwnConnected(levels, serialNumber) then
        if hasCompanyCodeCallback then CompanyCodeCallback(levels[0], levels[1])
        else if hasMessageCallback then MessageCallback(m.0, payload)
        else Dropped
      else if hasMessageCallback then MessageCallback(m.0, payload)
      else PrintAndDisconnect(m.0, payload)
  }

  /** Python's rendering of an optional string inside an f-string: `None` prints as "None". */
  function Render(s: Option<string>): string
  {
    match s
    case None => "None"
    case Some(v) => v
  }

  /** `on_connect` subscribes when the serial number is not '' (None passes) and the company-code callback is set. */
  predicate SubscribesOwnConnected(serialNumber: Option<string>, hasCompanyCodeCallback: bool)
    ensures SubscribesOwnConnected(serialNumber, hasCompanyCodeCallback)
      <==> hasCompanyCodeCallback && (serialNumber.None? || |serialNumber.value| > 0)
  {
    serialNumber != Some("") && hasCompanyCodeCallback
  }

  /** The filter `+/{serial}/connected`: any company, this serial number. */
  function OwnConnectedFilter(serialNumber: Option<string>): (f: string)
    ensures serialNumber.None? ==> f == "+/None/connected"
    ensures Separator !in Render(serialNumber) ==> Split(f) == ["+", Render(serialNumber), "connected"]
  {
    var level := Render(serialNumber);
    var f := "+/" + level + "/connected";
    assert serialNumber.None? ==> f == "+/None/connected";
    if Separator !in level then
      JoinThree("+", level, "connected");
      assert f == "+" + "/" + level + "/" + "connected";
      SplitJoin(["+", level, "connected"]);
      f
    else f
  }

  /**
   * The subscription `on_connect` makes delivers exactly the topics `on_message` learns from:
   * a topic matches `+/{serial}/connected` if and only if it is an own `connected` topic.
   */
  lemma OwnFilterMatchesOwnConnected(serialNumber: string, topic: string)
    requires serialNumber != "" && serialNumber != "+" && serialNumber != "#"
    requires Separator !in serialNumber
    ensures Matches(Split(OwnConnectedFilter(Some(serialNumber))), Split(topic))
        <==> IsOwnConnected(Split(topic), Some(serialNumber))
  {
    var levels := ["+", serialNumber, "connected"];
    assert levels[1..][1..] == ["connected"];
    assert Join(levels[1..]) == serialNumber + "/" + "connected";
    assert Join(levels) == "+" + "/" + (serialNumber + "/" + "connected");
    assert OwnConnectedFilter(Some(serialNumber)) == Join(levels);
    SplitJoin(levels);
    var t := Split(topic);
    var f1, f2 := levels[1..], levels[1..][1..];
    assert f1 == [serialNumber, "connected"] && f2 == ["connected"] && f2[1..] == [];
    assert Matches(levels, t) == (t != [] && Matches(f1, t[1..]));
    assert Matches(f1, t[1..]) == (|t| >= 2 && serialNumber == t[1] && Matches(f2, t[1..][1..]));
    if |t| >= 2 {
      assert Matches(f2, t[1..][1..]) == (|t| >= 3 && "connected" == t[2] && Matches([], t[1..][1..][1..]));
      if |t| >= 3 {
        assert t[1..][1..][1..] == t[3..];
      }
    }
  }

  /** A device's `connected` message teaches the helper the company code it was published under. */
  lemma LearnsCompanyFromConnectedTopic(code: Option<string>, companyCode: string, serialNumber: string, payload: string)
    requires Separator !in companyCode && Separator !in serialNumber
    ensures LearnedCompanyCode(code, Some(serialNumber), (Join([companyCode, serialNumber, "connected"]), Utf8(payload)))
         == Some(companyCode)
  {
    SplitJoin([companyCode, serialNumber, "connected"]);
  }

  /** Another device's `connected` message leaves the company code as it was. */
  lemma OtherSerialKeepsCompanyCode(code: Option<string>, companyCode: string, serialNumber: string, other: string, payload: Text)
    requires Separator !in companyCode && Separator !in other && other != serialNumber
    ensures LearnedCompanyCode(code, Some(serialNumber), (Join([companyCode, other, "connected"]), payload)) == code
  {
    SplitJoin([companyCode, other, "connected"]);
  }

  /** The company code after a run of messages, applied one at a time from the first. */
  function LearnAll(code: Option<string>, serialNumber: Option<string>, messages: seq<Message>): Option<string>
    decreases |messages|
  {
    if messages == [] then code
    else LearnAll(LearnedCompanyCode(code, serialNumber, messages[0]), serialNumber, messages[1..])
  }

  /** The company code taught by the last message that teaches one, found from the end. */
  function LastTaught(serialNumber: Option<string>, messages: seq<Message>): Option<string>
    decreases |messages|
  {
    if messages == [] then None
    else
      var last := messages[|messages| - 1];
      if Teaches(serialNumber, last) then Some(Split(last.0)[0])
      else LastTaught(serialNumber, messages[..|messages| - 1])
  }

  lemma {:induction false} LastTaughtCons(serialNumber: Option<string>, m: Message, rest: seq<Message>)
    ensures LastTaught(serialNumber, [m] + rest)
         == if LastTaught(serialNumber, rest).Some? then LastTaught(serialNumber, rest)
            else LearnedCompanyCode(None, serialNumber, m)
    decreases |rest|
  {
    var all := [m] + rest;
    if rest == [] {
      assert all == [m];
      assert all[..0] == [];
    } else {
      assert all[|all| - 1] == rest[|rest| - 1];
      assert all[..|all| - 1] == [m] + rest[..|rest| - 1];
      LastTaughtCons(serialNumber, m, rest[..|rest| - 1]);
    }
  }

  /** `get_company_code` after any run of messages returns the code taught last, or the initial one. */
  lemma {:induction false} CompanyCodeIsLastTaught(code: Option<string>, serialNumber: Option<string>, messages: seq<Message>)
    ensures LearnAll(code, serialNumber, messages)
         == if LastTaught(serialNumber, messages).Some? then LastTaught(serialNumber, messages) else code
    decreases |messages|
  {
    if messages != [] {
      var m, rest := messages[0], messages[1..];
      assert messages == [m] + rest;
      CompanyCodeIsLastTaught(LearnedCompanyCode(code, serialNumber, m), serialNumber, rest);
      LastTaughtCons(serialNumber, m, rest);
    }
  }

  class MqttHelper {
    const serialNumber: Option<string>
    var companyCode: Option<string>
    const hasCompanyCodeCallback: bool
    const hasConnectCallback: bool
    const hasMessageCallback: bool
    /** What the helper has asked of the broker client, oldest first. */
    var intents: seq<Intent>

    /** The fields the constructor stores; connecting, TLS and the blocking loop are not modelled. */
    constructor (serialNumber: Option<string>, companyCode: Option<string>,
                 hasCompanyCodeCallback: bool, hasConnectCallback: bool, hasMessageCallback: bool)
      ensures this.serialNumber == serialNumber && this.companyCode == companyCode
      ensures this.hasCompanyCodeCallback == hasCompanyCodeCallback
      ensures this.hasConnectCallback == hasConnectCallback
      ensures this.hasMessageCallback == hasMessageCallback
      ensures intents == []
    {
      this.serialNumber := serialNumber;
      this.companyCode := companyCode;
      this.hasCompanyCodeCallback := hasCompanyCodeCallback;
      this.hasConnectCallback := hasConnectCallback;
      this.hasMessageCallback := hasMessageCallback;
      intents := [];
    }

    /** `on_connect`: runs the connect callback if there is one, then possibly subscribes to the own filter. */
    method OnConnect() returns (connectCallbackRan: bool)
      modifies this`intents
      ensures connectCallbackRan == hasConnectCallback
      ensures intents == old(intents) +
        if SubscribesOwnConnected(serialNumber, hasCompanyCodeCallback)
        then [Intent.Subscribe(OwnConnectedFilter(serialNumber), ExactlyOnce)] else []
    {
      connectCallbackRan := hasConnectCallback;
      if serialNumber != Some("") && hasCompanyCodeCallback {
        Subscribe(OwnConnectedFilter(serialNumber), ExactlyOnce);
      }
    }

    /** `on_message`: stores the learned company code and hands the message to one callback. */
    method OnMessage(topic: string, payload: Text) returns (r: Route)
      modifies this`companyCode, this`intents
      ensures companyCode == LearnedCompanyCode(old(companyCode), serialNumber, (topic, payload))
      ensures r == Routing(serialNumber, hasCompanyCodeCallback, hasMessageCallback, (topic, payload))
      ensures intents == old(intents) + if r.PrintAndDisconnect? then [Intent.Disconnect] else []
    {
      if payload.NotUtf8? {
        return Raised(UnicodeDecodeError);
      }
      var split := Split(topic);
      if |split| == 3 && Some(split[1]) == serialNumber && split[2] == "connected" {
        companyCode := Some(split[0]);
        if hasCompanyCodeCallback {
          r := CompanyCodeCallback(companyCode.value, serialNumber.value);
        } else if hasMessageCallback {
          r := MessageCallback(topic, payload.text);
        } else {
          r := Dropped;
        }
      } else if hasMessageCallback {
        r := MessageCallback(topic, payload.text);
      } else {
        r := PrintAndDisconnect(topic, payload.text);
        Disconnect();
      }
    }

    method Subscribe(filter: string, qos: nat)
      modifies this`intents
      ensures intents == old(intents) + [Intent.Subscribe(filter, qos)]
    {
      intents := intents + [Intent.Subscribe(filter, qos)];
    }

    /** Publishing; waiting for the acknowledgement is not modelled. */
    method Publish(topic: string, message: string, qos: nat)
      modifies this`intents
      ensures intents == old(intents) + [Intent.Publish(topic, message, qos)]
    {
      intents := intents + [Intent.Publish(topic, message, qos)];
    }

    method Disconnect()
      modifies this`intents
      ensures intents == old(intents) + [Intent.Disconnect]
    {
      intents := intents + [Intent.Disconnect];
    }

    /** `get_company_code`: the company code stored by the constructor or by the last learning message. */
    function GetCompanyCode(): (code: Option<string>)
      reads this
      ensures code == companyCode
    {
      companyCode
    }
  }
}
