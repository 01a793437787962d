/** The read-only client page: how stored values are displayed. */
module ClienteVisualizar {
  import opened Wrappers
  import opened Text
  import ClienteForm

  /** The date the API returns for "no date". */
  const StoredMinDate: string := "0001-01-01T00:00:00"

  /** A displayed date: a dash, or the stored instant shown in the pt-BR locale. */
  datatype DateText = Dash | Locale(raw: string)

  /** `formatarData`: no date, an empty one or the API's minimum date show as a dash. */
  function FormatDate(dataStr: Option<string>): (r: DateText)
    ensures r.Dash? <==> dataStr.None? || dataStr.value == "" || dataStr.value == StoredMinDate
    ensures r.Locale? ==> r.raw == dataStr.value
  {
    if dataStr.None? || dataStr.value == "" || dataStr.value == StoredMinDate then Dash
    else Locale(dataStr.value)
  }

  /**
   * The page recognises the minimum date only in the API's spelling: the
   * spelling the form sends would be shown as a real date.
   */
  lemma SentMinDateShownAsDate()
    ensures FormatDate(Some(ClienteForm.MinDate)) == Locale(ClienteForm.MinDate)
    ensures FormatDate(Some(StoredMinDate)) == Dash
  {
    assert |ClienteForm.MinDate| != |StoredMinDate|;
  }

  /** The link target of the site: none without a site, otherwise always an `http` address. */
  function SiteHref(site: Option<string>): (r: Option<string>)
    ensures r.None? <==> site.None? || site.value == ""
    ensures r.Some? ==> IsPrefix("http", r.value)
    ensures r.Some? && IsPrefix("http", site.value) ==> r.value == site.value
    ensures r.Some? && !IsPrefix("http", site.value) ==> r.value == "https://" + site.value
  {
    if site.None? || site.value == "" then None
    else if IsPrefix("http", site.value) then Some(site.value)
    else
      assert ("https://" + site.value)[..4] == "http";
      Some("https://" + site.value)
  }

  /** A link target used as the site again yields the same link. */
  lemma SiteHrefIdempotent(site: Option<string>)
    requires SiteHref(site).Some?
    ensures SiteHref(SiteHref(site)) == SiteHref(site)
  {
  }

  /**
   * A stored "1"/"0" flag shown as one of two words: "Consumidor Final" shows
   * "Sim" or "Não", "Status" shows "Bloqueado" or "Ativo" (the block details
   * appear only with the first).
   */
  function FlagLabel(stored: Option<string>, whenSet: string, otherwise: string): (r: string)
    requires whenSet != otherwise
    ensures r == whenSet || r == otherwise
    ensures r == whenSet <==> stored == Some("1")
  {
    if stored == Some("1") then whenSet else otherwise
  }

  /**
   * A client saved from either form shows as active, and as a final consumer
   * exactly when the form's switch was on.
   */
  lemma SavedClientLabels(d: ClienteForm.FormData, screen: ClienteForm.Screen)
    ensures var p := ClienteForm.BuildPayload(d, screen);
      && FlagLabel(Some(p.bloqueado), "Bloqueado", "Ativo") == "Ativo"
      && (FlagLabel(Some(p.consumidorFinal), "Sim", "Não") == "Sim" <==> d.consumidorFinal)
  {
  }
}
