/** The client of the smspro.nikita.kg SMS gateway (index.js): the `Sms`
    class, the request structures it builds for the four gateway actions,
    the request URL, the unwrapping of the `response` envelope and the
    decoding of pushed delivery reports. */
module SmsPro {
  import opened JsValue

  const API_URL := "smspro.nikita.kg/api/"
  const HTTP := "http://"
  const HTTPS := "https://"

  const ACTION_SEND := "message"
  const ACTION_REPORT := "dr"
  const ACTION_ABONENT := "def"
  const ACTION_INFO := "info"

  /** One HTTP POST: target URL and XML body. */
  datatype Post = Post(url: string, body: string)

  /** What the transport's callback receives: `error` and `body`. */
  datatype Reply = Reply(error: Value, body: Value)

  /** The code the client calls but does not contain: the XML encoder
      (`j2xParser.parse`), the HTTP transport (`request.post`) and the XML
      decoder (`getTraversalObj` then `convertToJson`; `Throw` when the
      parser throws). */
  datatype Collaborators = Collaborators(
    encode: Value -> string,
    post: Post -> Reply,
    decode: Value -> Completion)

  // ---------------------------------------------------------------------
  // URL construction

  /** The URL a request for `action` goes to. */
  function Url(useHttp: Value, action: string): string
  {
    (if Truthy(useHttp) then HTTP else HTTPS) + API_URL + action
  }

  /** Reads a gateway URL back into (plain HTTP?, action). */
  function ParseUrl(url: string): Option<(bool, string)>
  {
    var plain := HTTP + API_URL;
    var secure := HTTPS + API_URL;
    if |plain| <= |url| && url[..|plain|] == plain then Some((true, url[|plain|..]))
    else if |secure| <= |url| && url[..|secure|] == secure then Some((false, url[|secure|..]))
    else None
  }

  /** The URL carries exactly the scheme choice and the action. */
  lemma UrlRoundTrip(useHttp: Value, action: string)
    ensures ParseUrl(Url(useHttp, action)) == Some((Truthy(useHttp), action))
  {
    var url := Url(useHttp, action);
    var plain := HTTP + API_URL;
    var secure := HTTPS + API_URL;
    if Truthy(useHttp) {
      assert url == plain + action;
      assert url[..|plain|] == plain;
      assert url[|plain|..] == action;
    } else {
      assert url == secure + action;
      assert url[4] == 's' != plain[4];
      assert url[..|plain|] != plain;
      assert url[..|secure|] == secure;
      assert url[|secure|..] == action;
    }
  }

  /** Two requests go to the same URL exactly when they name the same
      action and agree on the scheme. */
  lemma UrlInjective(useHttp1: Value, action1: string, useHttp2: Value, action2: string)
    ensures Url(useHttp1, action1) == Url(useHttp2, action2)
        <==> Truthy(useHttp1) == Truthy(useHttp2) && action1 == action2
  {
    UrlRoundTrip(useHttp1, action1);
    UrlRoundTrip(useHttp2, action2);
  }

  // ---------------------------------------------------------------------
  // sendXMLRequest

  /** The POST the exchange issues for `data` under `action`. */
  function RequestOf(useHttp: Value, data: Value, action: string, io: Collaborators): Post
  {
    Post(Url(useHttp, action), io.encode(data))
  }

  /** `sendXMLRequest(data, action)` of a client whose `useHttp` field is
      `useHttp`: encode, POST to the action's URL, fail with the transport's
      error, otherwise decode the body and read its `response` property. */
  function SendXMLRequest(useHttp: Value, data: Value, action: string, io: Collaborators): Completion
  {
    var reply := io.post(RequestOf(useHttp, data, action, io));
    if Truthy(reply.error) then Throw(reply.error)
    else
      match io.decode(reply.body)
      case Throw(e) => Throw(e)
      case Normal(json) => Member(json, "response")
  }

  /** The scheme flag changes nothing but the URL's scheme: the body is
      the same, and the POSTs coincide exactly when both flags agree in
      truthiness. */
  lemma RequestSchemeOnly(useHttp1: Value, useHttp2: Value, data: Value, action: string, io: Collaborators)
    ensures RequestOf(useHttp1, data, action, io).body == RequestOf(useHttp2, data, action, io).body
    ensures RequestOf(useHttp1, data, action, io) == RequestOf(useHttp2, data, action, io)
        <==> Truthy(useHttp1) == Truthy(useHttp2)
  {
    UrlInjective(useHttp1, action, useHttp2, action);
  }

  /** The exchange consults the transport once, for the action's URL and
      the encoded request, and the decoder only on that reply's body:
      collaborators that agree there give the same outcome. */
  lemma SendXMLRequestSinglePost(useHttp: Value, data: Value, action: string, io1: Collaborators, io2: Collaborators)
    requires io1.encode(data) == io2.encode(data)
    requires io1.post(RequestOf(useHttp, data, action, io1)) == io2.post(RequestOf(useHttp, data, action, io2))
    requires io1.decode(io1.post(RequestOf(useHttp, data, action, io1)).body)
          == io2.decode(io2.post(RequestOf(useHttp, data, action, io2)).body)
    ensures SendXMLRequest(useHttp, data, action, io1) == SendXMLRequest(useHttp, data, action, io2)
  {
  }

  /** A transport failure rejects with the transport's error, unchanged,
      whatever the decoder would have done with a body. */
  lemma SendXMLRequestTransportError(useHttp: Value, data: Value, action: string, io: Collaborators, otherDecode: Value -> Completion)
    requires Truthy(io.post(RequestOf(useHttp, data, action, io)).error)
    ensures SendXMLRequest(useHttp, data, action, io) == Throw(io.post(RequestOf(useHttp, data, action, io)).error)
    ensures SendXMLRequest(useHttp, data, action, io.(decode := otherDecode)) == SendXMLRequest(useHttp, data, action, io)
  {
  }

  /** Without a transport error the outcome is the decoded tree's
      `response` property; it fails only when decoding fails (with the
      decoder's exception) or yields undefined/null (a TypeError). */
  lemma SendXMLRequestEnvelope(useHttp: Value, data: Value, action: string, io: Collaborators)
    requires !Truthy(io.post(RequestOf(useHttp, data, action, io)).error)
    ensures var decoded := io.decode(io.post(RequestOf(useHttp, data, action, io)).body);
      && (decoded.Throw? ==> SendXMLRequest(useHttp, data, action, io) == decoded)
      && (decoded.Normal? && !Nullish(decoded.value) ==>
            SendXMLRequest(useHttp, data, action, io) == Normal(Get(decoded.value, "response")))
      && (decoded.Normal? && Nullish(decoded.value) ==>
            SendXMLRequest(useHttp, data, action, io) == Throw(TypeError))
  {
  }

  // ---------------------------------------------------------------------
  // Request structures, one per gateway action

  /** One entry of the `phones` list: `{phone: phone}`. */
  function PhoneEntry(phone: Value): Value
  {
    Obj([("phone", phone)])
  }

  /** The `phones` list that pushing one entry per phone produces. */
  function PhoneEntries(phones: seq<Value>): seq<Value>
  {
    if phones == [] then []
    else PhoneEntries(phones[..|phones| - 1]) + [PhoneEntry(phones[|phones| - 1])]
  }

  /** The phone numbers a `phones` list carries, read back entry by entry. */
  function PhoneNumbers(entries: seq<Value>): seq<Value>
  {
    seq(|entries|, i requires 0 <= i < |entries| => Get(entries[i], "phone"))
  }

  /** The list has one entry per phone, in the caller's order. */
  lemma {:induction false} PhoneEntriesAt(phones: seq<Value>)
    ensures |PhoneEntries(phones)| == |phones|
    ensures forall i :: 0 <= i < |phones| ==> PhoneEntries(phones)[i] == PhoneEntry(phones[i])
  {
    if phones != [] {
      PhoneEntriesAt(phones[..|phones| - 1]);
    }
  }

  /** Reading the numbers back from the list gives the phones unchanged. */
  lemma PhoneListRoundTrip(phones: seq<Value>)
    ensures PhoneNumbers(PhoneEntries(phones)) == phones
  {
    PhoneEntriesAt(phones);
  }

  /** `time`: the argument, or '' when it is undefined. */
  function TimeField(time: Value): Value
  {
    if time != Undefined then time else Str("")
  }

  /** `test`: 1 for any argument other than undefined (false included), 0 for undefined. */
  function TestField(test: Value): Value
  {
    if test != Undefined then Num(1) else Num(0)
  }

  /** The entries of the `message` object literal of `sendMessage`, with
      `entries` standing for the already filled `phones` list. */
  function MessageFields(id: Value, login: Value, pass: Value, sender: Value, text: Value,
                         entries: seq<Value>, time: Value, test: Value): seq<(string, Value)>
  {
    [("id", id), ("login", login), ("pwd", pass), ("sender", sender), ("text", text),
     ("phones", List(entries)), ("time", TimeField(time)), ("test", TestField(test))]
  }

  /** The request `sendMessage` sends for the phones its loop walks. */
  function MessageRequest(id: Value, login: Value, pass: Value, sender: Value, text: Value,
                          phones: seq<Value>, time: Value, test: Value): Value
  {
    Obj([("message", Obj(MessageFields(id, login, pass, sender, text, PhoneEntries(phones), time, test)))])
  }

  /** The request `getReport` sends: `phone` is added only when supplied. */
  function ReportRequest(id: Value, login: Value, pass: Value, phone: Value): Value
  {
    var base := [("id", id), ("login", login), ("pwd", pass)];
    Obj([("dr", Obj(if phone != Undefined then base + [("phone", phone)] else base))])
  }

  /** The request `getAbonentInfo` sends. */
  function AbonentRequest(login: Value, pass: Value, phone: Value): Value
  {
    Obj([("def", Obj([("login", login), ("pwd", pass), ("phone", phone)]))])
  }

  /** The request `getAccountInfo` sends. */
  function AccountRequest(login: Value, pass: Value): Value
  {
    Obj([("info", Obj([("login", login), ("pwd", pass)]))])
  }

  /** The `message` request has the one root key `message`, whose object
      holds exactly id, login, pwd, sender, text, phones, time and test. */
  lemma MessageRequestKeys(id: Value, login: Value, pass: Value, sender: Value, text: Value,
                           phones: seq<Value>, time: Value, test: Value)
    ensures var req := MessageRequest(id, login, pass, sender, text, phones, time, test);
      && Keys(req.fields) == [ACTION_SEND]
      && Get(req, ACTION_SEND).Obj?
      && Keys(Get(req, ACTION_SEND).fields) == ["id", "login", "pwd", "sender", "text", "phones", "time", "test"]
  {
    var f := MessageFields(id, login, pass, sender, text, PhoneEntries(phones), time, test);
    LookupAt([("message", Obj(f))], 0);
  }

  /** The id, the current credentials and sender, and the text are sent as given. */
  lemma MessageRequestFields(id: Value, login: Value, pass: Value, sender: Value, text: Value,
                             phones: seq<Value>, time: Value, test: Value)
    ensures var msg := Get(MessageRequest(id, login, pass, sender, text, phones, time, test), ACTION_SEND);
      && Get(msg, "id") == id
      && Get(msg, "login") == login
      && Get(msg, "pwd") == pass
      && Get(msg, "sender") == sender
      && Get(msg, "text") == text
  {
    var f := MessageFields(id, login, pass, sender, text, PhoneEntries(phones), time, test);
    LookupAt([("message", Obj(f))], 0);
    var msg := Obj(f);
    assert Get(msg, "id") == id by { LookupAt(f, 0); }
    assert Get(msg, "login") == login by { LookupAt(f, 1); }
    assert Get(msg, "pwd") == pass by { LookupAt(f, 2); }
    assert Get(msg, "sender") == sender by { LookupAt(f, 3); }
    assert Get(msg, "text") == text by { LookupAt(f, 4); }
  }

  /** The `phones` list has one `{phone}` entry per phone, in the caller's order. */
  lemma MessageRequestPhones(id: Value, login: Value, pass: Value, sender: Value, text: Value,
                             phones: seq<Value>, time: Value, test: Value)
    ensures var msg := Get(MessageRequest(id, login, pass, sender, text, phones, time, test), ACTION_SEND);
      && Get(msg, "phones").List?
      && |Get(msg, "phones").items| == |phones|
      && (forall i :: 0 <= i < |phones| ==> Get(msg, "phones").items[i] == PhoneEntry(phones[i]))
      && PhoneNumbers(Get(msg, "phones").items) == phones
  {
    var f := MessageFields(id, login, pass, sender, text, PhoneEntries(phones), time, test);
    LookupAt([("message", Obj(f))], 0);
    LookupAt(f, 5);
    PhoneEntriesAt(phones);
    PhoneListRoundTrip(phones);
  }

  /** `time` defaults to '' and `test` is 1 exactly when an argument,
      whatever its value, was passed, 0 when it was left undefined. */
  lemma MessageRequestDefaults(id: Value, login: Value, pass: Value, sender: Value, text: Value,
                               phones: seq<Value>, time: Value, test: Value)
    ensures var msg := Get(MessageRequest(id, login, pass, sender, text, phones, time, test), ACTION_SEND);
      && (time == Undefined ==> Get(msg, "time") == Str(""))
      && (time != Undefined ==> Get(msg, "time") == time)
      && (Get(msg, "test") == Num(1) <==> test != Undefined)
      && (Get(msg, "test") == Num(0) <==> test == Undefined)
  {
    var f := MessageFields(id, login, pass, sender, text, PhoneEntries(phones), time, test);
    LookupAt([("message", Obj(f))], 0);
    LookupAt(f, 6);
    LookupAt(f, 7);
  }

  /** The `dr` request has the one root key `dr`, whose object holds id,
      login and pwd, and a `phone` key exactly when a phone was supplied,
      carrying it unchanged; an omitted phone leaves no key at all. */
  lemma ReportRequestShape(id: Value, login: Value, pass: Value, phone: Value)
    ensures var req := ReportRequest(id, login, pass, phone);
      var dr := Get(req, ACTION_REPORT);
      && Keys(req.fields) == [ACTION_REPORT]
      && dr.Obj?
      && Keys(dr.fields) == ["id", "login", "pwd"] + (if phone != Undefined then ["phone"] else [])
      && Get(dr, "id") == id
      && Get(dr, "login") == login
      && Get(dr, "pwd") == pass
      && ("phone" in Keys(dr.fields) <==> phone != Undefined)
      && (phone != Undefined ==> Get(dr, "phone") == phone)
  {
    var base := [("id", id), ("login", login), ("pwd", pass)];
    var f := if phone != Undefined then base + [("phone", phone)] else base;
    LookupAt([("dr", Obj(f))], 0);
    assert Get(Obj(f), "id") == id by { LookupAt(f, 0); }
    assert Get(Obj(f), "login") == login by { LookupAt(f, 1); }
    assert Get(Obj(f), "pwd") == pass by { LookupAt(f, 2); }
    if phone != Undefined {
      LookupAt(f, 3);
    }
  }

  /** The `def` request holds exactly login, pwd and phone, as given. */
  lemma AbonentRequestShape(login: Value, pass: Value, phone: Value)
    ensures var req := AbonentRequest(login, pass, phone);
      var def := Get(req, ACTION_ABONENT);
      && Keys(req.fields) == [ACTION_ABONENT]
      && def.Obj?
      && Keys(def.fields) == ["login", "pwd", "phone"]
      && Get(def, "login") == login
      && Get(def, "pwd") == pass
      && Get(def, "phone") == phone
  {
    var f := [("login", login), ("pwd", pass), ("phone", phone)];
    LookupAt([("def", Obj(f))], 0);
    LookupAt(f, 0);
    LookupAt(f, 1);
    LookupAt(f, 2);
  }

  /** The `info` request carries the credentials and nothing else. */
  lemma AccountRequestShape(login: Value, pass: Value)
    ensures var req := AccountRequest(login, pass);
      var info := Get(req, ACTION_INFO);
      && Keys(req.fields) == [ACTION_INFO]
      && info.Obj?
      && Keys(info.fields) == ["login", "pwd"]
      && Get(info, "login") == login
      && Get(info, "pwd") == pass
  {
    var f := [("login", login), ("pwd", pass)];
    LookupAt([("info", Obj(f))], 0);
    LookupAt(f, 0);
    LookupAt(f, 1);
  }

  // ---------------------------------------------------------------------
  // The client

  /** A gateway client: credentials, sender name and the scheme flag. */
  class Sms {
    var login: Value
    var pass: Value
    var senderID: Value
    var useHttp: Value

    /** `new Sms(login, pass, senderID, useHttp)`: the first three are
        stored as given, `useHttp` falls back to false when omitted. */
    constructor (login: Value, pass: Value, senderID: Value, useHttp: Value)
      ensures this.login == login && this.pass == pass && this.senderID == senderID
      ensures useHttp != Undefined ==> this.useHttp == useHttp
      ensures useHttp == Undefined ==> this.useHttp == Bool(false)
    {
      this.login := login;
      this.pass := pass;
      this.senderID := senderID;
      this.useHttp := if useHttp != Undefined then useHttp else Bool(false);
    }

    /** Replaces the credentials; sender and scheme stay. */
    method ChangeCredential(login: Value, pass: Value)
      modifies this`login, this`pass
      ensures this.login == login && this.pass == pass
      ensures senderID == old(senderID) && useHttp == old(useHttp)
    {
      this.login := login;
      this.pass := pass;
    }

    /** `setDenderID` (sic): replaces the sender name; credentials and
        scheme stay. */
    method SetDenderID(senderID: Value)
      modifies this`senderID
      ensures this.senderID == senderID
      ensures login == old(login) && pass == old(pass) && useHttp == old(useHttp)
    {
      this.senderID := senderID;
    }

    /** `sendMessage(message, phones, time, test)` with `id` the value the
        id generator produced: a `phones` argument `for...of` cannot walk
        rejects with a TypeError; otherwise the `message` request built
        from the current fields goes to the `message` action. */
    method SendMessage(id: Value, message: Value, phones: Value, time: Value, test: Value, io: Collaborators)
      returns (result: Completion)
      ensures Iterate(phones).None? ==> result == Throw(TypeError)
      ensures Iterate(phones).Some? ==>
        result == SendXMLRequest(useHttp, MessageRequest(id, login, pass, senderID, message,
                                                         Iterate(phones).value, time, test),
                                 ACTION_SEND, io)
    {
      var walked := Iterate(phones);
      if walked.None? {
        return Throw(TypeError);
      }
      var list := walked.value;
      var entries: seq<Value> := [];
      var i := 0;
      while i < |list|
        invariant 0 <= i <= |list|
        invariant entries == PhoneEntries(list[..i])
      {
        assert list[..i + 1][..i] == list[..i];
        entries := entries + [PhoneEntry(list[i])];
        i := i + 1;
      }
      assert list[..i] == list;
      var data := Obj([("message", Obj(MessageFields(id, login, pass, senderID, message, entries, time, test)))]);
      result := SendXMLRequest(useHttp, data, ACTION_SEND, io);
    }

    /** `getReport(id, phone)`: adds `phone` to the `dr` object only when
        it is not undefined, then sends to the `dr` action. */
    method GetReport(id: Value, phone: Value, io: Collaborators) returns (result: Completion)
      ensures result == SendXMLRequest(useHttp, ReportRequest(id, login, pass, phone), ACTION_REPORT, io)
    {
      var dr := [("id", id), ("login", login), ("pwd", pass)];
      if phone != Undefined {
        PutNewKey(dr, "phone", phone);
        dr := Put(dr, "phone", phone);
      }
      result := SendXMLRequest(useHttp, Obj([("dr", Obj(dr))]), ACTION_REPORT, io);
    }

    /** `getAbonentInfo(phone)`: sends login, pwd and phone to the `def` action. */
    method GetAbonentInfo(phone: Value, io: Collaborators) returns (result: Completion)
      ensures result == SendXMLRequest(useHttp, AbonentRequest(login, pass, phone), ACTION_ABONENT, io)
    {
      result := SendXMLRequest(useHttp, Obj([("def", Obj([("login", login), ("pwd", pass), ("phone", phone)]))]),
                               ACTION_ABONENT, io);
    }

    /** `getAccountInfo()`: sends only login and pwd to the `info` action. */
    method GetAccountInfo(io: Collaborators) returns (result: Completion)
      ensures result == SendXMLRequest(useHttp, AccountRequest(login, pass), ACTION_INFO, io)
    {
      result := SendXMLRequest(useHttp, Obj([("info", Obj([("login", login), ("pwd", pass)]))]), ACTION_INFO, io);
    }

    /** The static `webHookReport(report)`: decode the pushed body; if the
        decoded tree is truthy and has truthy top-level `report` AND
        top-level `dr` properties, return `report.dr`, otherwise false.
        A decoder exception is not caught. */
    static function WebHookReport(report: Value, decode: Value -> Completion): Completion
    {
      match decode(report)
      case Throw(e) => Throw(e)
      case Normal(json) =>
        if Truthy(json) && Truthy(Get(json, "report")) && Truthy(Get(json, "dr"))
        then Member(Get(json, "report"), "dr")
        else Normal(Bool(false))
    }
  }

  // ---------------------------------------------------------------------
  // webHookReport

  /** The webhook hands a decoder exception through unchanged and never
      throws on a decoded tree: it returns `report.dr` when the tree, its
      top-level `report` and its top-level `dr` are all truthy, and false
      in every other case. */
  lemma WebHookReportSelection(report: Value, decode: Value -> Completion)
    ensures decode(report).Throw? ==> Sms.WebHookReport(report, decode) == decode(report)
    ensures decode(report).Normal? ==>
      var json := decode(report).value;
      var selected := Truthy(json) && Truthy(Get(json, "report")) && Truthy(Get(json, "dr"));
      && (selected ==> Sms.WebHookReport(report, decode) == Normal(Get(Get(json, "report"), "dr")))
      && (!selected ==> Sms.WebHookReport(report, decode) == Normal(Bool(false)))
  {
  }

  /** On a decoded tree the webhook answers false exactly when the
      selection fails or the selected `report.dr` is itself false. */
  lemma WebHookReportFalse(report: Value, decode: Value -> Completion)
    requires decode(report).Normal?
    ensures var json := decode(report).value;
      Sms.WebHookReport(report, decode) == Normal(Bool(false))
      <==> !(Truthy(json) && Truthy(Get(json, "report")) && Truthy(Get(json, "dr")))
           || Get(Get(json, "report"), "dr") == Bool(false)
  {
  }

  /** The gateway's pushed report decodes to `{report: {dr: ...}}`, with
      `dr` nested under `report` and no top-level `dr`: the webhook as
      written answers false for every such payload. */
  lemma WebHookReportDropsNestedReport(report: Value, decode: Value -> Completion, dr: Value)
    requires decode(report) == Normal(Obj([("report", Obj([("dr", dr)]))]))
    ensures Sms.WebHookReport(report, decode) == Normal(Bool(false))
  {
    assert Get(decode(report).value, "dr") == Undefined;
  }

  /** The webhook with the nested test `jsonObj.report.dr` that its
      documentation and the gateway's payload call for. */
  function WebHookReportIntended(report: Value, decode: Value -> Completion): Completion
  {
    match decode(report)
    case Throw(e) => Throw(e)
    case Normal(json) =>
      if Truthy(json) && Truthy(Get(json, "report")) && Truthy(Get(Get(json, "report"), "dr"))
      then Member(Get(json, "report"), "dr")
      else Normal(Bool(false))
  }

  /** The corrected webhook answers false exactly when the tree has no
      truthy `report.dr`, and otherwise returns that nested value. */
  lemma WebHookReportIntendedSelection(report: Value, decode: Value -> Completion)
    requires decode(report).Normal?
    ensures var json := decode(report).value;
      var nested := Truthy(json) && Truthy(Get(json, "report")) && Truthy(Get(Get(json, "report"), "dr"));
      && (WebHookReportIntended(report, decode) == Normal(Bool(false)) <==> !nested)
      && (nested ==> WebHookReportIntended(report, decode) == Normal(Get(Get(json, "report"), "dr")))
  {
  }

  /** The corrected webhook returns the pushed report's content. */
  lemma WebHookReportIntendedDelivers(report: Value, decode: Value -> Completion, dr: Value)
    requires decode(report) == Normal(Obj([("report", Obj([("dr", dr)]))]))
    requires Truthy(dr)
    ensures WebHookReportIntended(report, decode) == Normal(dr)
  {
    var inner := [("dr", dr)];
    assert Get(Obj(inner), "dr") == dr by { LookupAt(inner, 0); }
    LookupAt([("report", Obj(inner))], 0);
  }
}
