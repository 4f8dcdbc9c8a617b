/** The client's string table (client/i18n.py): one Spanish bundle, and a
    lookup that falls back to the default locale and then to the key. */
module I18n {

  const DefaultLocale: string := "es"

  /** The "es" bundle. */
  const EsStrings: map<string, string> := map[
    "app.title" := "Invictos Bet Tracker",
    "app.subtitle" := "Seguimiento modular de tus apuestas con sincronización",
    "nav.dashboard" := "Panel",
    "nav.history" := "Historial",
    "nav.new_bet" := "Registrar",
    "bet.type.single" := "Sencilla",
    "bet.type.parlay" := "Parlay",
    "bet.status.won" := "Acertada",
    "bet.status.lost" := "Fallida",
    "bet.status.pending" := "Pendiente",
    "summary.stake" := "Apostado",
    "summary.net" := "Neto",
    "summary.hits" := "Aciertos",
    "summary.yield" := "Yield",
    "daily.title" := "Detalle del día",
    "daily.empty" := "Agrega una apuesta para este día",
    "daily.metrics" := "{count} apuestas | Apostado {stake} | Retorno {gross} | Neto {net}",
    "history.title" := "Historial",
    "history.empty" := "Historial vacío aún",
    "form.title" := "Registrar nueva apuesta",
    "form.detail" := "Detalle",
    "form.stake" := "Stake",
    "form.odds" := "Cuota",
    "form.cashout" := "Retorno / cashout",
    "form.cashout.label" := "Retorno",
    "form.outcome" := "Estado",
    "form.parlay.add" := "Agregar selección",
    "form.parlay.section" := "Selecciones",
    "form.parlay.market" := "Mercado",
    "form.save" := "Guardar",
    "form.error.detail" := "Describe la apuesta",
    "form.error.stake_odds" := "Stake/cuota inválidos",
    "form.error.positive" := "Stake y cuota deben ser > 0",
    "form.error.cashout" := "Cashout inválido",
    "form.error.parlay" := "Un parlay necesita 2+ selecciones",
    "form.success" := "Apuesta guardada",
    "form.offline" := "Sin conexión. Guardado localmente",
    "toast.sync.ok" := "Sincronización completa",
    "toast.sync.fail" := "Sin conexión con el backend",
    "toast.delete.offline" := "Eliminado localmente, pendiente de sincronización",
    "toolbar.today" := "Hoy",
    "toolbar.previous" := "Anterior",
    "toolbar.next" := "Siguiente",
    "toolbar.pick_date" := "Elegir fecha",
    "toolbar.sync" := "Sincronizar",
    "actions.delete" := "Eliminar"
  ]

  /** _STRINGS: the bundles by locale. */
  const Strings: map<string, map<string, string>> := map[DefaultLocale := EsStrings]

  /** _STRINGS.get(locale, _STRINGS[DEFAULT_LOCALE]). */
  function Bundle(locale: string): (b: map<string, string>)
    ensures locale in Strings ==> b == Strings[locale]
    ensures locale !in Strings ==> b == EsStrings
  {
    if locale in Strings then Strings[locale] else Strings[DefaultLocale]
  }

  /** t(key, locale=locale) without keyword arguments: the bundle's text,
      or the key itself when the bundle lacks it. */
  function T(key: string, locale: string): (r: string)
    ensures key in Bundle(locale) ==> r == Bundle(locale)[key]
    ensures key !in Bundle(locale) ==> r == key
  {
    var bundle := Bundle(locale);
    if key in bundle then bundle[key] else key
  }

  /** Every locale but "es" reads the "es" bundle. */
  lemma UnknownLocaleFallsBack(key: string, locale: string)
    requires locale != DefaultLocale
    ensures T(key, locale) == T(key, DefaultLocale)
  {
  }

  /** A key no bundle knows comes back unchanged, whatever the locale. */
  lemma MissingKeyEchoed(key: string, locale: string)
    requires key !in EsStrings
    ensures T(key, locale) == key
  {
  }

  /** The label of the net result. */
  lemma NetLabel()
    ensures T("summary.net", DefaultLocale) == "Neto"
  {
  }
}
