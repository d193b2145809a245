/**
 * The same classifications are written three times: in the dashboard, in the
 * API server and in the daily report job. These lemmas state that the copies
 * agree, up to the accents the dashboard puts on its level names.
 */
module Consistency {
  import opened Wrappers
  import Dashboard
  import Notifier
  import DailyReport

  /** The dashboard's AQI band and the emailed AQI label name the same band in the same colour. */
  lemma AqiLabelsAgree(aqi: real)
    ensures Dashboard.AqiColor(aqi).labelText == Notifier.GetAqiLabel(aqi).labelText
    ensures Dashboard.AqiColor(aqi).color == Notifier.GetAqiLabel(aqi).color
  {
  }

  /** The server's spelling of a dashboard dust level. */
  function Unaccented(level: string): string {
    if level == "MODÉRÉ" then "MODERE" else if level == "ÉLEVÉ" then "ELEVE" else level
  }

  /** The server's dust alert is the dashboard's, with the level written without accents. */
  lemma DustAlertsAgree(pm10: real, windSpeed: real)
    ensures var front := Dashboard.GetDustAlert(pm10, windSpeed);
      var back := Notifier.GetDustAlert(pm10, windSpeed);
      back == Notifier.DustAlert(Unaccented(front.level), front.color, front.text)
  {
  }

  /** The daily job's copy of the dust classifier is the server's. */
  lemma ReportDustAlertAgrees(pm10: real, windSpeed: real)
    ensures DailyReport.GetDustAlert(pm10, windSpeed) == Notifier.GetDustAlert(pm10, windSpeed)
  {
  }

  /**
   * Both senders refuse to send on the same condition: the daily job reports a
   * delivery only where the server would have built a message, and reports
   * none where the server would not.
   */
  lemma CredentialGuardsAgree(to: string, isAlert: bool, user: Option<string>, password: Option<string>, delivered: bool)
    ensures DailyReport.SendEmail(to, user, password, delivered) ==> Notifier.DashboardEmail(to, isAlert, user, password).Some?
    ensures Notifier.DashboardEmail(to, isAlert, user, password).None? ==> !DailyReport.SendEmail(to, user, password, delivered)
    ensures Notifier.DashboardEmail(to, isAlert, user, password).Some? ==> DailyReport.SendEmail(to, user, password, delivered) == delivered
  {
  }
}
