/** The records the signage player works on: ads as the backend sends them,
    the screen configuration, the play/skip log events and the snapshot kept
    in durable storage. A JavaScript `undefined` field is `None`. */
module Types {

  datatype Option<+T> = None | Some(value: T)

  /** A point in time as `new Date(...)` gives it: the instant (milliseconds)
      that `<` and `>` compare, and the local hour and minute that
      `getHours()` and `getMinutes()` return. */
  datatype DateTime = DateTime(instant: int, hour: int, minute: int)

  /** The current time: the instant with its local hour and minute, and the
      local weekday `getDay()` returns (0 is Sunday). */
  datatype Now = Now(at: DateTime, weekday: int)

  predicate ValidClock(t: DateTime) {
    0 <= t.hour < 24 && 0 <= t.minute < 60
  }

  datatype AdConfiguration = AdConfiguration(
    days: seq<string>,
    duration: int,
    startTime: DateTime,
    endTime: DateTime)

  datatype AdType = Video | Image | Iframe

  datatype Ad = Ad(
    adAccountId: string,
    adConfiguration: AdConfiguration,
    adId: string,
    adType: AdType,
    adUrl: Option<string>,
    remoteUrl: Option<string>,
    campaignId: string,
    campaignView: int,
    uploadName: string,
    uploadRef: string)

  datatype ScreenConfig = ScreenConfig(
    city: string,
    deviceId: string,
    layout: string,
    layoutReference: string,
    screenHeight: string,
    screenId: string,
    screenLayoutWidth: int,
    screenName: string,
    screenResolution: string,
    screenWidth: string,
    ttl: string)

  /** The configuration the provider starts with, before any sync. */
  const EmptyScreenConfig := ScreenConfig("", "", "", "", "", "", 0, "", "", "", "")

  datatype MessageType = Play | Skipped

  /** What `sendLog` is given; the device id and timestamp it adds on the
      wire are not part of the model. */
  datatype LogEvent = LogEvent(
    accountId: string,
    adId: string,
    campaignId: string,
    messageType: MessageType,
    uploadRef: string)

  function LogFor(ad: Ad, kind: MessageType): (e: LogEvent)
    ensures e.messageType == kind && e.adId == ad.adId && e.uploadRef == ad.uploadRef
    ensures e.accountId == ad.adAccountId && e.campaignId == ad.campaignId
  {
    LogEvent(ad.adAccountId, ad.adId, ad.campaignId, kind, ad.uploadRef)
  }

  /** The `{ads, screen}` value stored under the "cache-ads" key. */
  datatype Snapshot = Snapshot(ads: seq<Ad>, screen: ScreenConfig)

  /** One entry of the payload's `data` array. */
  datatype Campaigns = Campaigns(campaigns: seq<Ad>)

  /** The `{config, data}` object from the HTTP pull or the push channel. */
  datatype Payload = Payload(config: ScreenConfig, data: seq<Campaigns>)
}
