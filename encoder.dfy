/** The notification encoder of `APN.sendAPN`: how the caller's `data`
    record becomes the fields of the wire notification handed to the
    library. It is a pure function of `data` and the current time `now`
    in whole seconds since the epoch. */
module Encoder {
  import opened Js

  /** 28 days in seconds: the time to live used when none is given. */
  const DefaultTimeToLive: int := 28 * 86400

  /** Priority values of the wire notification. */
  const NormalPriority: int := 5
  const HighPriority: int := 10

  /** The keys of the alert built from the separate title and body fields. */
  const AlertKeys: set<string> :=
    {"title", "body", "title-loc-key", "title-loc-args", "loc-key", "loc-args", "launch-image", "action"}

  /** The caller's `data` record; a property the caller leaves out is `Undefined`. */
  datatype Data = Data(
    custom: Value,
    retries: Value,
    expiry: Value,
    timeToLive: Value,
    priority: Value,
    encoding: Value,
    badge: Value,
    sound: Value,
    alert: Value,
    title: Value,
    body: Value,
    titleLocKey: Value,
    titleLocArgs: Value,
    locKey: Value,
    locArgs: Value,
    bodyLocArgs: Value,
    launchImage: Value,
    action: Value,
    topic: Value,
    category: Value,
    clickAction: Value,
    contentAvailable: Value,
    mdm: Value,
    urlArgs: Value,
    truncateAtWordEnd: Value,
    collapseKey: Value,
    mutableContent: Value,
    threadId: Value)

  /** The wire notification: `payload` is the value handed to the library's
      notification constructor, the other fields are the properties the
      adapter assigns afterwards. */
  datatype Notification = Notification(
    payload: Value,
    retryLimit: Value,
    expiry: Value,
    priority: int,
    encoding: Value,
    badge: Value,
    sound: Value,
    alert: Value,
    topic: Value,
    category: Value,
    contentAvailable: Value,
    mdm: Value,
    urlArgs: Value,
    truncateAtWordEnd: Value,
    collapseId: Value,
    mutableContent: Value,
    threadId: Value)

  /** `defaultExpiry(ttl)`: `now` plus the time to live when it is a number,
      plus 28 days otherwise. */
  function DefaultExpiry(ttl: Value, now: int): (r: int)
    ensures ttl.Num? ==> r - now == ttl.n
    ensures !ttl.Num? ==> r == now + 2419200
  {
    (if ttl.Num? then ttl.n else DefaultTimeToLive) + now
  }

  /** The alert object built when `data.alert` is falsy. */
  function SynthesizedAlert(d: Data): (a: Value)
    ensures a.Obj? && a.props.Keys == AlertKeys
  {
    Obj(map[
      "title" := d.title,
      "body" := d.body,
      "title-loc-key" := d.titleLocKey,
      "title-loc-args" := d.titleLocArgs,
      "loc-key" := d.locKey,
      // bodyLocArgs is the older name of locArgs
      "loc-args" := Or(d.locArgs, d.bodyLocArgs),
      "launch-image" := d.launchImage,
      "action" := d.action])
  }

  /** The message built by `sendAPN` before it looks at the connection.
      Whatever the caller passes, the notification has a payload object,
      a truthy retry limit, a truthy alert and one of the two priorities. */
  function Encode(d: Data, now: int): (n: Notification)
    ensures n.priority == NormalPriority || n.priority == HighPriority
    ensures Truthy(n.payload) && Truthy(n.retryLimit) && Truthy(n.alert)
    ensures n.mutableContent == d.mutableContent || n.mutableContent == Num(0)
  {
    Notification(
      payload := Or(d.custom, Obj(map[])),
      retryLimit := Or(d.retries, Num(-1)),
      expiry := Or(d.expiry, Num(DefaultExpiry(d.timeToLive, now))),
      priority := if d.priority == Str("normal") then NormalPriority else HighPriority,
      encoding := d.encoding,
      badge := d.badge,
      sound := d.sound,
      alert := Or(d.alert, SynthesizedAlert(d)),
      topic := d.topic,
      category := Or(d.category, d.clickAction),
      contentAvailable := d.contentAvailable,
      mdm := d.mdm,
      urlArgs := d.urlArgs,
      truncateAtWordEnd := d.truncateAtWordEnd,
      collapseId := d.collapseKey,
      mutableContent := Or(d.mutableContent, Num(0)),
      threadId := d.threadId)
  }

  /** Priority 5 exactly for the string "normal"; 10 for every other value,
      absent included. */
  lemma PriorityMapping(d: Data, now: int)
    ensures Encode(d, now).priority == 5 <==> d.priority == Str("normal")
    ensures Encode(d, now).priority == 10 <==> d.priority != Str("normal")
  {
  }

  /** A truthy expiry is kept; otherwise the expiry is `now` plus a numeric
      time to live (0 included) or plus 28 days. */
  lemma ExpiryRule(d: Data, now: int)
    ensures Truthy(d.expiry) ==> Encode(d, now).expiry == d.expiry
    ensures !Truthy(d.expiry) && d.timeToLive.Num? ==> Encode(d, now).expiry == Num(now + d.timeToLive.n)
    ensures !Truthy(d.expiry) && !d.timeToLive.Num? ==> Encode(d, now).expiry == Num(now + 2419200)
  {
  }

  /** The current time reaches the notification only through a defaulted
      expiry: two encodings differ at most in `expiry`, and not at all when
      the caller gave a truthy expiry. A later `now` gives a later default
      expiry by exactly the elapsed time. */
  lemma NowOnlyAffectsExpiry(d: Data, now1: int, now2: int)
    ensures Encode(d, now1).(expiry := Undefined) == Encode(d, now2).(expiry := Undefined)
    ensures Truthy(d.expiry) ==> Encode(d, now1) == Encode(d, now2)
    ensures !Truthy(d.expiry) ==>
      Encode(d, now2).expiry.n - Encode(d, now1).expiry.n == now2 - now1
  {
  }

  /** Retry limit, mutable content and category fall back when the given
      value is falsy; an explicit 0 retries becomes the unlimited -1. */
  lemma Defaults(d: Data, now: int)
    ensures Truthy(d.retries) ==> Encode(d, now).retryLimit == d.retries
    ensures !Truthy(d.retries) ==> Encode(d, now).retryLimit == Num(-1)
    ensures d.retries == Num(0) ==> Encode(d, now).retryLimit == Num(-1)
    ensures Truthy(d.mutableContent) ==> Encode(d, now).mutableContent == d.mutableContent
    ensures !Truthy(d.mutableContent) ==> Encode(d, now).mutableContent == Num(0)
    ensures Truthy(d.category) ==> Encode(d, now).category == d.category
    ensures !Truthy(d.category) ==> Encode(d, now).category == d.clickAction
  {
  }

  /** A truthy `data.alert` is used as it is, and then the title, body and
      localisation fields have no influence on the alert at all. */
  lemma AlertGivenVerbatim(d: Data, now: int, e: Data)
    requires Truthy(d.alert)
    requires e.alert == d.alert
    ensures Encode(d, now).alert == d.alert
    ensures Encode(e, now).alert == Encode(d, now).alert
  {
  }

  /** Without a truthy `data.alert`, the alert has exactly the eight
      documented keys, each copied from its field, with `loc-args` taken
      from `locArgs` and falling back to `bodyLocArgs`. */
  lemma AlertSynthesized(d: Data, now: int)
    requires !Truthy(d.alert)
    ensures var a := Encode(d, now).alert;
      && a.Obj? && a.props.Keys == AlertKeys
      && a.props["title"] == d.title
      && a.props["body"] == d.body
      && a.props["title-loc-key"] == d.titleLocKey
      && a.props["title-loc-args"] == d.titleLocArgs
      && a.props["loc-key"] == d.locKey
      && a.props["loc-args"] == (if Truthy(d.locArgs) then d.locArgs else d.bodyLocArgs)
      && a.props["launch-image"] == d.launchImage
      && a.props["action"] == d.action
  {
  }

  /** The remaining fields pass through unchanged; `collapseKey` is renamed
      `collapseId`, and a falsy `custom` becomes an empty payload object. */
  lemma CopiedFields(d: Data, now: int)
    ensures var n := Encode(d, now);
      && n.encoding == d.encoding && n.badge == d.badge && n.sound == d.sound
      && n.topic == d.topic && n.contentAvailable == d.contentAvailable
      && n.mdm == d.mdm && n.urlArgs == d.urlArgs
      && n.truncateAtWordEnd == d.truncateAtWordEnd
      && n.collapseId == d.collapseKey && n.threadId == d.threadId
      && n.payload == (if Truthy(d.custom) then d.custom else Obj(map[]))
  {
  }
}
