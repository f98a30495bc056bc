/** The records shared by producers, queue and consumers. */
module Models {
  import opened Text

  /** Where a message comes from and where it goes. */
  datatype Route = Route(sourcePlatform: string, sourceId: string, targetPlatform: string, targetId: string)

  function TrimRoute(r: Route): Route {
    Route(Trim(r.sourcePlatform), Trim(r.sourceId), Trim(r.targetPlatform), Trim(r.targetId))
  }

  /** The key of a destination in the rate limiter. */
  function DestKey(r: Route): string {
    r.targetPlatform + ":" + r.targetId
  }

  predicate HasBlank(r: Route) {
    r.sourcePlatform == "" || r.sourceId == "" || r.targetPlatform == "" || r.targetId == ""
  }

  predicate Clean(r: Route) {
    TrimRoute(r) == r && !HasBlank(r)
  }

  /** A message on its way, with its media still at its source. */
  datatype MediaEvent = MediaEvent(
    eventId: string,
    route: Route,
    fileName: string,
    fileHash: string,
    caption: string,
    mediaGroupId: string,
    mediaType: string,
    contentType: string,
    senderName: string,
    replyToSender: string,
    replyToCaption: string,
    fileUrl: string,
    availableAt: int)

  /** Per-pairing rules, as stored in the rule_config column. */
  datatype RuleConfig = RuleConfig(
    regexFilters: seq<string>,
    blockedSenders: seq<string>,
    includeWords: seq<string>,
    requiredTags: seq<string>,
    allowedMimeTypes: seq<string>,
    maxFileSizeMb: int,
    quietHoursStart: string,
    quietHoursEnd: string,
    burstLimit: int,
    burstWindow: int,
    captionTemplate: string,
    language: string,
    simulationMode: bool,
    digestEnabled: bool,
    digestIntervalMinutes: int,
    digestMaxItems: int,
    aiModerationEnabled: bool,
    aiModerationThreshold: real)

  /** What an empty rule_config decodes to. */
  const ZERO_CONFIG := RuleConfig([], [], [], [], [], 0, "", "", 0, 0, "", "", false, false, 0, 0, false, 0.0)

  datatype Option<+T> = None | Some(value: T)
}
