/**
 * The card of the connected account: the streamer's name and picture, a
 * partner badge, and the Disconnect button that clears both tokens.
 */
module AccountCard {
  import opened Js
  import opened TwitchHandler

  /** The fields of the streamer data the card reads; `broadcasterType` is `""`, `"affiliate"` or `"partner"`. */
  datatype StreamerData = StreamerData(displayName: string, profileImageUrl: string, broadcasterType: JsString)

  /** `streamerData.broadcaster_type === "partner"`. */
  predicate ShowsPartnerBadge(d: StreamerData) {
    d.broadcasterType == Str("partner")
  }

  /** The badge shows only for partners: affiliates, ordinary accounts and a missing type show none. */
  lemma PartnerBadgeIff(d: StreamerData)
    ensures ShowsPartnerBadge(d) <==> d.broadcasterType.Str? && d.broadcasterType.s == "partner"
    ensures !ShowsPartnerBadge(d.(broadcasterType := Str("affiliate")))
    ensures !ShowsPartnerBadge(d.(broadcasterType := Str("")))
    ensures !ShowsPartnerBadge(d.(broadcasterType := Undefined))
  {
  }

  /** `{...settings, TWITCH_ACCESS_TOKEN: "", TWITCH_REFRESH_TOKEN: ""}`. */
  function Disconnect(s: Settings): (r: Settings)
    ensures r.accessToken == Str("") && r.refreshToken == Str("")
    ensures r.clientId == s.clientId && r.clientSecret == s.clientSecret && r.channelName == s.channelName
    ensures r.openAiApiKey == s.openAiApiKey && r.redirectUri == s.redirectUri && r.broadcasterId == s.broadcasterId
  {
    s.(accessToken := Str(""), refreshToken := Str(""))
  }

  /** Disconnecting twice is disconnecting once, and afterwards the session is not ready. */
  lemma DisconnectIdempotent(s: Settings)
    ensures Disconnect(Disconnect(s)) == Disconnect(s)
    ensures !IsReady(Disconnect(s))
  {
  }
}
