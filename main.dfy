/**
 * The discovery dispatcher of the entry script: every `connected` notification of a device not
 * yet asked is answered with one `aboutdevice/request`, and the first `aboutdevice/response` of
 * each device is read for its `users` field. Two lists of serial numbers, kept for the life of
 * the process, make both steps happen at most once per serial number.
 */
module Discovery {
  import opened Wrappers
  import opened Topic
  import opened Json
  import Mqtt

  /** The company whose devices the script listens to. */
  const Company := "6718874bc1628f9b0dcd1ee7"

  /** What one call of `on_message` did. */
  datatype Dispatch =
    | Requested(companyCode: string, serialNumber: string)
      // the serial number was listed and a request was published
    | Responded(serialNumber: string, users: Result<Value, Exception>)
      // the serial number was listed, then the payload was read: what `.get("users")` returned, or the exception that escaped
    | Ignored
    | Raised(error: Exception)
      // the topic could not be indexed; nothing was listed

  /** The two module-level lists, `devices_published_to` and `devices_received_from`. */
  datatype Tracker = Tracker(publishedTo: seq<string>, receivedFrom: seq<string>)

  /** The topic a request is published to. */
  function RequestTopic(companyCode: string, serialNumber: string): (topic: string)
    ensures topic == Join([companyCode, serialNumber, "aboutdevice", "request"])
  {
    JoinFour(companyCode, serialNumber, "aboutdevice", "request");
    companyCode + "/" + serialNumber + "/" + "aboutdevice" + "/" + "request"
  }

  /**
   * `json.loads(message).get("users")`: a decode error, `.get` on a non-dict, or the field's value.
   * Python's None is JSON `null`, so a missing field and a `null` field give the same `Null`.
   */
  function UsersField(message: Document): (r: Result<Value, Exception>)
    ensures message.NotJson? ==> r == Failure(JsonDecodeError)
    ensures message.Parsed? && !message.value.Obj? ==> r == Failure(AttributeError)
    ensures message.Parsed? && message.value.Obj? && "users" in message.value.fields
      ==> r == Success(message.value.fields["users"])
    ensures message.Parsed? && message.value.Obj? && "users" !in message.value.fields ==> r == Success(Null)
  {
    match message
    case NotJson => Failure(JsonDecodeError)
    case Parsed(v) =>
      if !v.Obj? then Failure(AttributeError)
      else if "users" in v.fields then Success(v.fields["users"])
      else Success(Null)
  }

  /** A missing `users` field and a `null` one cannot be told apart: both read as Python's None. */
  lemma MissingUsersLooksLikeNull(fields: map<string, Value>)
    requires "users" !in fields
    ensures UsersField(Parsed(Obj(fields))) == UsersField(Parsed(Obj(fields["users" := Null])))
  {
  }

  predicate IsConnected(levels: seq<string>)
  {
    |levels| == 3 && levels[2] == "connected"
  }

  predicate IsResponse(levels: seq<string>)
  {
    |levels| == 4 && levels[2] == "aboutdevice" && levels[3] == "response"
  }

  /**
   * One call of `on_message` on the lists: what it does to them and what it reports. A list
   * changes only by gaining the topic's serial number, and only when it did not hold it.
   */
  function Step(t: Tracker, topic: string, message: Document): (r: (Tracker, Dispatch))
    ensures r.1.Requested? ==>
      r.1.serialNumber !in t.publishedTo && r.0 == t.(publishedTo := t.publishedTo + [r.1.serialNumber])
    ensures r.1.Responded? ==>
      r.1.serialNumber !in t.receivedFrom && r.0 == t.(receivedFrom := t.receivedFrom + [r.1.serialNumber])
    ensures !r.1.Requested? && !r.1.Responded? ==> r.0 == t
    ensures r.1.Raised? <==> |Split(topic)| < 2
  {
    var levels := Split(topic);
    if |levels| < 2 then (t, Raised(IndexError))
    else
      var companyCode, serialNumber := levels[0], levels[1];
      if IsConnected(levels) && serialNumber !in t.publishedTo then
        (t.(publishedTo := t.publishedTo + [serialNumber]), Requested(companyCode, serialNumber))
      else if IsResponse(levels) && serialNumber !in t.receivedFrom then
        (t.(receivedFrom := t.receivedFrom + [serialNumber]), Responded(serialNumber, UsersField(message)))
      else (t, Ignored)
  }

  /** The first `connected` of a serial number lists it and requests its configuration. */
  lemma FirstConnectedRequests(t: Tracker, topic: string, companyCode: string, serialNumber: string, message: Document)
    requires Split(topic) == [companyCode, serialNumber, "connected"]
    requires serialNumber !in t.publishedTo
    ensures Step(t, topic, message) ==
      (Tracker(t.publishedTo + [serialNumber], t.receivedFrom), Requested(companyCode, serialNumber))
  {
  }

  /** A repeated `connected` changes nothing and publishes nothing. */
  lemma RepeatedConnectedIsIgnored(t: Tracker, topic: string, serialNumber: string, message: Document)
    requires |Split(topic)| == 3 && Split(topic)[1] == serialNumber && Split(topic)[2] == "connected"
    requires serialNumber in t.publishedTo
    ensures Step(t, topic, message) == (t, Ignored)
  {
  }

  /**
   * The key is the serial number alone: once a serial number has been requested under one
   * company code, its `connected` under any other company code is ignored.
   */
  lemma DedupIgnoresCompanyCode(t: Tracker, first: string, second: string, serialNumber: string, m1: Document, m2: Document)
    requires IsConnected(Split(first)) && Split(first)[1] == serialNumber
    requires IsConnected(Split(second)) && Split(second)[1] == serialNumber
    ensures var after := Step(t, first, m1).0; Step(after, second, m2) == (after, Ignored)
  {
  }

  /**
   * The first response of a serial number lists it, whether or not the serial number was ever
   * requested, and then reads the payload; the request list is untouched.
   */
  lemma FirstResponseIsRead(t: Tracker, topic: string, companyCode: string, serialNumber: string, message: Document)
    requires Split(topic) == [companyCode, serialNumber, "aboutdevice", "response"]
    requires serialNumber !in t.receivedFrom
    ensures Step(t, topic, message) ==
      (Tracker(t.publishedTo, t.receivedFrom + [serialNumber]), Responded(serialNumber, UsersField(message)))
  {
  }

  /** A payload that is not JSON still lists the serial number before the decode error escapes. */
  lemma MalformedResponseIsStillListed(t: Tracker, topic: string, serialNumber: string)
    requires IsResponse(Split(topic)) && Split(topic)[1] == serialNumber
    requires serialNumber !in t.receivedFrom
    ensures var r := Step(t, topic, NotJson);
      serialNumber in r.0.receivedFrom && r.1 == Responded(serialNumber, Failure(JsonDecodeError))
  {
  }

  /** A second response of a serial number changes nothing. */
  lemma RepeatedResponseIsIgnored(t: Tracker, topic: string, serialNumber: string, message: Document)
    requires IsResponse(Split(topic)) && Split(topic)[1] == serialNumber
    requires serialNumber in t.receivedFrom
    ensures Step(t, topic, message) == (t, Ignored)
  {
  }

  /** Any other topic of two levels or more changes nothing and publishes nothing. */
  lemma OtherTopicsAreIgnored(t: Tracker, topic: string, message: Document)
    requires |Split(topic)| >= 2 && !IsConnected(Split(topic)) && !IsResponse(Split(topic))
    ensures Step(t, topic, message) == (t, Ignored)
  {
  }

  /** A topic without a '/' fails on `topic_split[1]`, before either list is looked at. */
  lemma SingleLevelTopicRaises(t: Tracker, topic: string, message: Document)
    requires Separator !in topic
    ensures Step(t, topic, message) == (t, Raised(IndexError))
  {
    SingleLevel(topic);
  }

  /** The request of a device addresses that device: its topic splits into company, serial and the request channel. */
  lemma RequestTopicAddressesDevice(companyCode: string, serialNumber: string)
    requires Separator !in companyCode && Separator !in serialNumber
    ensures Split(RequestTopic(companyCode, serialNumber)) == [companyCode, serialNumber, "aboutdevice", "request"]
  {
    SplitJoin([companyCode, serialNumber, "aboutdevice", "request"]);
  }

  predicate Distinct(s: seq<string>)
  {
    forall i, j :: 0 <= i < j < |s| ==> s[i] != s[j]
  }

  /** Neither list ever holds a serial number twice. */
  lemma StepKeepsListsDistinct(t: Tracker, topic: string, message: Document)
    requires Distinct(t.publishedTo) && Distinct(t.receivedFrom)
    ensures Distinct(Step(t, topic, message).0.publishedTo) && Distinct(Step(t, topic, message).0.receivedFrom)
  {
  }

  /** The lists and the reports after a run of messages, handled one at a time from the first. */
  function Run(t: Tracker, messages: seq<(string, Document)>): (r: (Tracker, seq<Dispatch>))
    ensures |r.1| == |messages|
    ensures t.publishedTo <= r.0.publishedTo && t.receivedFrom <= r.0.receivedFrom
    decreases |messages|
  {
    if messages == [] then (t, [])
    else
      var (next, d) := Step(t, messages[0].0, messages[0].1);
      var (last, ds) := Run(next, messages[1..]);
      (last, [d] + ds)
  }

  /** How many of the reports are requests for `serialNumber`. */
  function RequestsFor(ds: seq<Dispatch>, serialNumber: string): nat
  {
    if ds == [] then 0
    else (if ds[0].Requested? && ds[0].serialNumber == serialNumber then 1 else 0) + RequestsFor(ds[1..], serialNumber)
  }

  /** How many of the reports are responses read for `serialNumber`. */
  function ResponsesFor(ds: seq<Dispatch>, serialNumber: string): nat
  {
    if ds == [] then 0
    else (if ds[0].Responded? && ds[0].serialNumber == serialNumber then 1 else 0) + ResponsesFor(ds[1..], serialNumber)
  }

  function Indicator(b: bool): nat { if b then 1 else 0 }

  /**
   * Over any run of messages a serial number is requested at most once, and not at all if it
   * was listed already: it ends up listed exactly when it was listed before or requested once.
   */
  lemma {:induction false} RequestedAtMostOnce(t: Tracker, messages: seq<(string, Document)>, serialNumber: string)
    ensures var r := Run(t, messages);
      RequestsFor(r.1, serialNumber) + Indicator(serialNumber in t.publishedTo)
        == Indicator(serialNumber in r.0.publishedTo)
    decreases |messages|
  {
    if messages != [] {
      var (next, d) := Step(t, messages[0].0, messages[0].1);
      RequestedAtMostOnce(next, messages[1..], serialNumber);
    }
  }

  /** Over any run of messages the response of a serial number is read at most once. */
  lemma {:induction false} RespondedAtMostOnce(t: Tracker, messages: seq<(string, Document)>, serialNumber: string)
    ensures var r := Run(t, messages);
      ResponsesFor(r.1, serialNumber) + Indicator(serialNumber in t.receivedFrom)
        == Indicator(serialNumber in r.0.receivedFrom)
    decreases |messages|
  {
    if messages != [] {
      var (next, d) := Step(t, messages[0].0, messages[0].1);
      RespondedAtMostOnce(next, messages[1..], serialNumber);
    }
  }

  /** Over any run of messages both lists stay free of repeats. */
  lemma {:induction false} RunKeepsListsDistinct(t: Tracker, messages: seq<(string, Document)>)
    requires Distinct(t.publishedTo) && Distinct(t.receivedFrom)
    ensures Distinct(Run(t, messages).0.publishedTo) && Distinct(Run(t, messages).0.receivedFrom)
    decreases |messages|
  {
    if messages != [] {
      StepKeepsListsDistinct(t, messages[0].0, messages[0].1);
      RunKeepsListsDistinct(Step(t, messages[0].0, messages[0].1).0, messages[1..]);
    }
  }

  /** The two filters `on_connect` subscribes to: a company's `connected` and `aboutdevice/response` topics. */
  function ConnectedFilter(companyCode: string): (filter: string)
    ensures filter == Join([companyCode, "+", "connected"])
  {
    JoinThree(companyCode, "+", "connected");
    companyCode + "/" + "+" + "/" + "connected"
  }

  function ResponseFilter(companyCode: string): (filter: string)
    ensures filter == Join([companyCode, "+", "aboutdevice", "response"])
  {
    JoinFour(companyCode, "+", "aboutdevice", "response");
    companyCode + "/" + "+" + "/" + "aboutdevice" + "/" + "response"
  }

  /** A company code that is one plain topic level (the script's own one is). */
  predicate PlainLevel(companyCode: string)
  {
    Separator !in companyCode && companyCode != "+" && companyCode != "#"
  }

  /** A message delivered under the `connected` subscription is a `connected` topic, so a new serial number is requested. */
  lemma ConnectedSubscriptionIsDispatched(companyCode: string, t: Tracker, topic: string, message: Document)
    requires PlainLevel(companyCode)
    requires Matches(Split(ConnectedFilter(companyCode)), Split(topic))
    ensures IsConnected(Split(topic)) && Split(topic)[0] == companyCode
    ensures Split(topic)[1] !in t.publishedTo ==> Step(t, topic, message).1.Requested?
  {
    SplitJoin([companyCode, "+", "connected"]);
    MatchesOneWildcardOfThree(companyCode, "connected", Split(topic));
  }

  /** A message delivered under the `aboutdevice/response` subscription is a response topic, so a new serial number is read. */
  lemma ResponseSubscriptionIsDispatched(companyCode: string, t: Tracker, topic: string, message: Document)
    requires PlainLevel(companyCode)
    requires Matches(Split(ResponseFilter(companyCode)), Split(topic))
    ensures IsResponse(Split(topic)) && Split(topic)[0] == companyCode
    ensures Split(topic)[1] !in t.receivedFrom ==> Step(t, topic, message).1.Responded?
  {
    SplitJoin([companyCode, "+", "aboutdevice", "response"]);
    MatchesOneWildcardOfFour(companyCode, "aboutdevice", "response", Split(topic));
  }

  /** `on_connect`: subscribe to both filters of the script's company at quality of service 2. */
  method OnConnect(mqtt: Mqtt.MqttHelper)
    modifies mqtt`intents
    ensures mqtt.intents == old(mqtt.intents) +
      [Mqtt.Intent.Subscribe(ConnectedFilter(Company), Mqtt.ExactlyOnce),
       Mqtt.Intent.Subscribe(ResponseFilter(Company), Mqtt.ExactlyOnce)]
  {
    mqtt.Subscribe(ConnectedFilter(Company), Mqtt.ExactlyOnce);
    mqtt.Subscribe(ResponseFilter(Company), Mqtt.ExactlyOnce);
  }

  /** The module-level state of the entry script and its `on_message` callback. */
  class Dispatcher {
    var devicesPublishedTo: seq<string>
    var devicesReceivedFrom: seq<string>

    constructor ()
      ensures devicesPublishedTo == [] && devicesReceivedFrom == []
    {
      devicesPublishedTo := [];
      devicesReceivedFrom := [];
    }

    function State(): Tracker
      reads this
    {
      Tracker(devicesPublishedTo, devicesReceivedFrom)
    }

    /**
     * `on_message`: updates the lists as `Step` says and, for a request, publishes an empty
     * message to the device's request topic at quality of service 2; nothing else is published.
     */
    method OnMessage(mqtt: Mqtt.MqttHelper, topic: string, message: Document) returns (r: Dispatch)
      modifies this, mqtt`intents
      ensures (State(), r) == Step(old(State()), topic, message)
      ensures mqtt.intents == old(mqtt.intents) +
        if r.Requested? then [Mqtt.Intent.Publish(RequestTopic(r.companyCode, r.serialNumber), "", Mqtt.ExactlyOnce)] else []
    {
      var topicSplit := Split(topic);
      if |topicSplit| < 2 {
        return Raised(IndexError);
      }
      var companyCode := topicSplit[0];
      var serialNumber := topicSplit[1];
      if |topicSplit| == 3 && topicSplit[2] == "connected" && serialNumber !in devicesPublishedTo {
        devicesPublishedTo := devicesPublishedTo + [serialNumber];
        mqtt.Publish(RequestTopic(companyCode, serialNumber), "", Mqtt.ExactlyOnce);
        r := Requested(companyCode, serialNumber);
      } else if |topicSplit| == 4 && topicSplit[2] == "aboutdevice" && topicSplit[3] == "response"
             && serialNumber !in devicesReceivedFrom {
        devicesReceivedFrom := devicesReceivedFrom + [serialNumber];
        r := Responded(serialNumber, UsersField(message));
      } else {
        r := Ignored;
      }
    }
  }

  /**
   * How the entry script wires the helper: no serial number, no company-code callback, this
   * module's `on_message` as message callback. Every decodable message therefore reaches the
   * dispatcher, and the helper makes no subscription of its own.
   */
  lemma EntryScriptRoutesEverythingToDispatcher(topic: string, payload: string)
    ensures Mqtt.Routing(None, false, true, (topic, Mqtt.Utf8(payload))) == Mqtt.MessageCallback(topic, payload)
    ensures !Mqtt.SubscribesOwnConnected(None, false)
  {
  }
}
