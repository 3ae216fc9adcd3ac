# smspro-nikita client in Dafny

A model of `index.js`, the Node.js client of the smspro.nikita.kg SMS
gateway. The client keeps credentials, a sender name and a scheme flag in
an `Sms` object. It builds one request tree per gateway action (`message`,
`dr`, `def`, `info`), POSTs the XML encoding of that tree to
`http(s)://smspro.nikita.kg/api/<action>`, and returns the `response`
property of the decoded reply. A static `webHookReport` decodes a delivery
report that the gateway pushes.

Two modules:

- `JsValue` (`json_value.dfy`) models the parts of JavaScript the client relies on:
  - undefined, null, booleans, integer numbers, strings, plain objects, arrays and native error objects, with `Undefined` standing for an omitted argument;
  - objects as key/value entries in insertion order;
  - truthiness (`Truthy`);
  - property reads (`Get`, and `Member`, which throws on undefined/null);
  - property assignment (`Put`);
  - what a `for...of` loop walks (`Iterate`).
- `SmsPro` (`sms_pro.dfy`) models the client itself:
  - the constants;
  - the `Sms` class, whose fields are changed in place by the constructor, `ChangeCredential` and `SetDenderID`;
  - the request builders, as specification functions (`MessageRequest`, `ReportRequest`, `AbonentRequest`, `AccountRequest`) and as the class methods that build and send them;
  - `Url` and `SendXMLRequest`;
  - the webhook.

The code the client calls but does not contain is passed in as
`Collaborators`:

- `encode` is the XML encoder;
- `post` is the HTTP transport, returning the callback's `error` and `body`;
- `decode` is the XML decoder, where a `Throw` stands for a parser exception.

The unique message id is a parameter of `SendMessage`. An `async` method's
rejected promise is a `Throw` completion.

The model follows the code where it departs from its documentation:

- `test` becomes 1 for any supplied argument, `false` and `0` included. It is 0 only when the argument is undefined (index.js:76).
- `sendMessage` does not require a non-empty phone list.
  - An array argument is walked element by element, and a string character by character.
  - Any other argument rejects with a TypeError, as `for...of` does.
- `webHookReport` tests a top-level `dr` property (index.js:229), not `report.dr`. So it answers false for the payload shape the gateway pushes. See Findings.
- `webHookReport` has no `try`/`catch`. An exception from the decoder reaches its caller. The function does not always degrade to `false`.
- `sendXMLRequest` reads `response` from the decoded tree with a plain property read.
  - A tree without `response` gives `undefined`.
  - A decoder result of undefined or null gives a TypeError.

## Model

| member | source | states |
|---|---|---|
| `JsValue.MemberAfterPut` | index.js:129-131 | After `o.key = v`, reading `o.key` gives `v`, and reading any other key gives what it gave before. |
| `JsValue.Put` | index.js:130 | Assigning `o.key = v` makes `key` read as `v` and leaves every other key's value alone. An existing key keeps its position. A new ordinary string key, such as the `phone` assigned here, is appended to the key order. |
| `JsValue.PutNewKey` | index.js:129-131 | Assigning a key that the object lacks appends exactly one entry at the end. |
| `JsValue.IterateStringRoundTrip` | index.js:80 | `for...of` over a string yields one-character strings that join back to the string, in order. |
| `SmsPro.UrlRoundTrip` | index.js:5-13 | The URL built for an action parses back into two parts: the scheme choice (plain http exactly when `useHttp` is truthy) and the action. The fixed host path sits between them. |
| `SmsPro.UrlInjective` | index.js:198 | Two requests share a URL if and only if they use the same action and their `useHttp` values have the same truthiness. |
| `SmsPro.RequestSchemeOnly` | index.js:196-198 | The scheme flag changes only the URL. The encoded body is identical, and the two POSTs are equal if and only if the flags have the same truthiness. |
| `SmsPro.SendXMLRequestSinglePost` | index.js:195-212 | The outcome depends only on two things: the transport's reply to the one POST to the action's URL with the encoded request, and the decoder's verdict on that reply's body. |
| `SmsPro.SendXMLRequestTransportError` | index.js:199-207 | When the transport reports an error, the call rejects with that error unchanged. What the decoder would return does not matter. |
| `SmsPro.SendXMLRequestEnvelope` | index.js:209-212 | Without a transport error, there are three outcomes. A decoder exception propagates unchanged. A decoded tree yields its `response` property. An undefined or null tree raises a TypeError. |
| `SmsPro.PhoneEntriesAt` | index.js:80-82 | The pushed `phones` list has as many entries as there are phones, and entry i is `{phone: phones[i]}`. |
| `SmsPro.PhoneListRoundTrip` | index.js:80-82 | Reading `phone` back from each list entry gives the original phones, in order. |
| `SmsPro.MessageRequestKeys` | index.js:67-78 | A `message` request has the single root key `message`, the same string as the URL's action `ACTION_SEND`. That root holds exactly the keys id, login, pwd, sender, text, phones, time and test, in that order. |
| `SmsPro.MessageRequestFields` | index.js:69-73 | A `message` request carries the generated id, the current login, password and sender, and the text, each unchanged. |
| `SmsPro.MessageRequestPhones` | index.js:74-82 | A `message` request's `phones` list has one `{phone}` entry per phone, in order, and reading the entries back gives the phones. |
| `SmsPro.MessageRequestDefaults` | index.js:75-76 | `time` is `''` when omitted and the argument otherwise. `test` is 1 if and only if an argument was supplied, and 0 if and only if it was omitted. |
| `SmsPro.ReportRequestShape` | index.js:120-131 | A `dr` request holds id, login and pwd. It has a `phone` key if and only if a phone was supplied, and then that key holds the phone. An omitted phone leaves no key at all. |
| `SmsPro.AbonentRequestShape` | index.js:155-162 | A `def` request holds exactly login, pwd and phone, with the values given. |
| `SmsPro.AccountRequestShape` | index.js:184-190 | An `info` request holds exactly login and pwd. |
| `SmsPro.Sms.constructor` | index.js:23-28 | Stores login, pass and senderID unchanged. `useHttp` is the argument when one is supplied and false when it is omitted. |
| `SmsPro.Sms.ChangeCredential` | index.js:30-33 | Replaces login and pass. senderID and useHttp are unchanged. |
| `SmsPro.Sms.SetDenderID` | index.js:35-37 | Replaces senderID. login, pass and useHttp are unchanged. |
| `SmsPro.Sms.SendMessage` | index.js:66-85 | If `phones` cannot be iterated, the call rejects with a TypeError. Otherwise the loop builds the phone list, and the call is the exchange of the `message` request (current fields, phones in order) under action `message`. |
| `SmsPro.Sms.GetReport` | index.js:120-134 | Adding `phone` to the `dr` object only when it is not undefined produces the `dr` request. The call is the exchange of that request under action `dr`. |
| `SmsPro.Sms.GetAbonentInfo` | index.js:155-165 | The call is the exchange of the `def` request built from the current credentials, under action `def`. |
| `SmsPro.Sms.GetAccountInfo` | index.js:184-193 | The call is the exchange of the `info` request built from the current credentials, under action `info`. |
| `SmsPro.WebHookReportSelection` | index.js:225-234 | A decoder exception passes through unchanged. On a decoded tree the webhook never throws. It returns `report.dr` when the tree, the top-level `report` and the top-level `dr` are all truthy, and false otherwise. |
| `SmsPro.WebHookReportFalse` | index.js:229-233 | On a decoded tree, the answer is false if and only if the selection test fails or the selected `report.dr` is itself false. |
| `SmsPro.WebHookReportDropsNestedReport` | index.js:229-230 | Every payload that decodes to `{report: {dr: x}}` gets the answer false. |
| `SmsPro.WebHookReportIntendedSelection` | index.js:229-230 | The corrected webhook answers false if and only if the tree has no truthy `report.dr`. Otherwise it returns that nested value. |
| `SmsPro.WebHookReportIntendedDelivers` | index.js:225-234 | The corrected webhook returns `x` for a payload that decodes to `{report: {dr: x}}` with `x` truthy. |

## Findings

| source | as written | input that shows it | evidently intended | confidence | as-written member | corrected member |
|---|---|---|---|---|---|---|
| index.js:229 | `jsonObj && jsonObj.report && jsonObj.dr` tests a top-level `dr` property. It then returns `jsonObj.report.dr`. | A body that decodes to `{report: {dr: {id: "42", phone: ...}}}`, the shape the gateway pushes. There is no top-level `dr`, so the answer is `false`. | Test the nested `jsonObj.report.dr`, the value that is returned. | high; not executed | `SmsPro.WebHookReportDropsNestedReport` | `SmsPro.WebHookReportIntendedDelivers` |

## Left out

- XML encoding and decoding (`j2xParser.parse`, `getTraversalObj`, `convertToJson`) are foreign library code. They are the `encode` and `decode` parameters, and no XML round trip is claimed.
- The HTTP POST and its Promise wrapper are network I/O. They are the `post` parameter, which returns the callback's `error` and `body`.
- `uniqid.process()` is an external id source. Its value is the `id` parameter of `SendMessage`.
- The `console.log` calls are output only.
- `async`/`await` scheduling is not modelled: each call is one request and one completion.
- The status-code tables in the doc comments are documentation. No code branches on them.
- JavaScript numbers are modelled as integers, with no NaN, -0 or fractions. The client creates only 0 and 1 itself.
- Property reads see only an object's own keys. Inherited prototype properties and array/string index properties are not modelled. On decoded trees the client reads only `response`, `report` and `dr`. On its own request objects it reads `data.message.phones` and `data.dr`, which are plain own keys.
- Symbol, BigInt and function values have no constructor in `Value`: the client neither creates nor inspects them.
- `JsValue.Put`: integer-like keys ("0", "1", ...) come first in JavaScript's key order; the model appends every new key. The client assigns only the key `phone`.
- `encode` is total: an exception thrown by `j2xParser.parse` (index.js:196) is not modelled.
- The `Sms` fields hold values, not references. If a caller passes an object as `login` (or any other field) and mutates it before a request, the source sends the mutated object and the model sends the original. Aliasing is not modelled.
- Iterating a string yields its characters; custom iterables and `Map`/`Set` arguments to `sendMessage` are not modelled.
- `SmsPro.Sms.WebHookReport` has no contract of its own: it is specified by `WebHookReportSelection` and `WebHookReportFalse`.
