/**
 * The API server's notification service: the classifiers behind its reports,
 * the half-hourly step that decides which alert and daily emails go out and
 * what is remembered, the email guard and subject, and the subscription list.
 */
module Notifier {
  import opened Wrappers

  // ---------------------------------------------------------------- classifiers

  datatype DustAlert = DustAlert(level: string, color: string, text: string)

  /** `get_dust_alert`: the same bands as the dashboard's, with unaccented level names. */
  function GetDustAlert(pm10: real, windSpeed: real): (a: DustAlert)
    ensures a.level in ["CRITIQUE", "ELEVE", "MODERE", "NORMAL"]
    ensures a.level == "CRITIQUE" <==> pm10 > 200.0 && windSpeed > 40.0
    ensures a.level == "ELEVE" <==> !(pm10 > 200.0 && windSpeed > 40.0) && pm10 > 100.0 && windSpeed > 25.0
    ensures a.level == "MODERE" <==> !(pm10 > 100.0 && windSpeed > 25.0) && pm10 > 50.0
  {
    if pm10 > 200.0 && windSpeed > 40.0 then DustAlert("CRITIQUE", "#ef4444", "Tempête de sable active")
    else if pm10 > 100.0 && windSpeed > 25.0 then DustAlert("ELEVE", "#f97316", "Brume de sable dense")
    else if pm10 > 50.0 then DustAlert("MODERE", "#f59e0b", "Poussière en suspension")
    else DustAlert("NORMAL", "#10b981", "Conditions claires")
  }

  datatype AqiLabel = AqiLabel(labelText: string, color: string)

  /** `get_aqi_label` */
  function GetAqiLabel(aqi: real): (l: AqiLabel)
    ensures l.labelText == "Bon" <==> aqi <= 50.0
    ensures l.labelText == "Dangereux" <==> aqi > 200.0
  {
    if aqi <= 50.0 then AqiLabel("Bon", "#10b981")
    else if aqi <= 100.0 then AqiLabel("Modéré", "#f59e0b")
    else if aqi <= 150.0 then AqiLabel("Sensible", "#f97316")
    else if aqi <= 200.0 then AqiLabel("Mauvais", "#ef4444")
    else AqiLabel("Dangereux", "#7c3aed")
  }

  /** The weather label of a report: clear sky for code 0, cloudy for any other code. */
  function WeatherLabel(code: int): (l: string)
    ensures l == "Ciel Dégagé" <==> code == 0
    ensures code != 0 ==> l == "Nuageux"
  {
    if code == 0 then "Ciel Dégagé" else "Nuageux"
  }

  // ---------------------------------------------------------------- email

  datatype Message = Message(sender: string, recipient: string, subject: string)

  const AlertPrefix: string := "[ALERTE] "
  const DailyPrefix: string := "[DAILY] "
  const ReportTitle: string := "Rapport Environnemental Djibouti"

  predicate IsAlertSubject(subject: string) {
    |subject| >= |AlertPrefix| && subject[..|AlertPrefix|] == AlertPrefix
  }

  /**
   * `send_dashboard_email` up to the SMTP call: nothing without both an SMTP
   * user and password (unset or empty); otherwise a message from that user
   * whose subject tells an alert from a daily report.
   */
  function DashboardEmail(to: string, isAlert: bool, user: Option<string>, password: Option<string>): (m: Option<Message>)
    ensures m.None? <==> user.None? || user.value == "" || password.None? || password.value == ""
    ensures m.Some? ==> m.value.sender == user.value && m.value.recipient == to
    ensures m.Some? ==> (IsAlertSubject(m.value.subject) <==> isAlert)
    ensures m.Some? ==> |m.value.subject| >= |ReportTitle|
                        && m.value.subject[|m.value.subject| - |ReportTitle|..] == ReportTitle
  {
    if user.None? || user.value == "" || password.None? || password.value == "" then None
    else
      var subject := (if isAlert then AlertPrefix else DailyPrefix) + ReportTitle;
      assert !isAlert ==> subject[1] == 'D';
      Some(Message(user.value, to, subject))
  }

  // ---------------------------------------------------------------- notification step

  /** What the service remembers between runs: the date of the last daily report and the last alert level. */
  datatype State = State(lastDaily: string, lastAlertLevel: string)

  /** The state assumed when none has been saved. */
  const InitialState: State := State("", "NORMAL")

  /** One call of `send_dashboard_email`. */
  datatype Mail = Mail(to: string, isAlert: bool)

  datatype Reading = Reading(pm10: real, windSpeed: real)

  datatype StepResult = StepResult(state: State, mails: seq<Mail>)

  function Mails(emails: seq<string>, isAlert: bool): (m: seq<Mail>)
    ensures |m| == |emails|
    ensures forall i :: 0 <= i < |m| ==> m[i] == Mail(emails[i], isAlert)
  {
    if emails == [] then [] else [Mail(emails[0], isAlert)] + Mails(emails[1..], isAlert)
  }

  predicate Alerting(level: string) {
    level == "CRITIQUE" || level == "ELEVE"
  }

  /**
   * The body of one run of the loop: alert every subscriber when the level is
   * CRITIQUE or ELEVE and differs from the last one; remember NORMAL; then send
   * the daily report if today's has not gone out.
   */
  function Step(st: State, alert: DustAlert, today: string, emails: seq<string>): StepResult {
    var alerting := Alerting(alert.level) && st.lastAlertLevel != alert.level;
    var last := if alerting then alert.level
                else if alert.level == "NORMAL" then "NORMAL"
                else st.lastAlertLevel;
    var daily := st.lastDaily != today;
    StepResult(State(if daily then today else st.lastDaily, last),
               (if alerting then Mails(emails, true) else []) + (if daily then Mails(emails, false) else []))
  }

  /** A whole run: a failed fetch raises before anything is sent or saved. */
  function Tick(st: State, reading: Option<Reading>, today: string, emails: seq<string>): StepResult {
    match reading
    case None => StepResult(st, [])
    case Some(r) => Step(st, GetDustAlert(r.pm10, r.windSpeed), today, emails)
  }

  function AlertMails(m: seq<Mail>): seq<Mail> {
    if m == [] then [] else (if m[0].isAlert then [m[0]] else []) + AlertMails(m[1..])
  }

  function DailyMails(m: seq<Mail>): seq<Mail> {
    if m == [] then [] else (if m[0].isAlert then [] else [m[0]]) + DailyMails(m[1..])
  }

  lemma {:induction false} SplitAlertMails(a: seq<Mail>, b: seq<Mail>)
    ensures AlertMails(a + b) == AlertMails(a) + AlertMails(b)
  {
    if a == [] {
      assert a + b == b;
    } else {
      var ab := a + b;
      assert ab[0] == a[0] && ab[1..] == a[1..] + b;
      SplitAlertMails(a[1..], b);
    }
  }

  lemma {:induction false} SplitDailyMails(a: seq<Mail>, b: seq<Mail>)
    ensures DailyMails(a + b) == DailyMails(a) + DailyMails(b)
  {
    if a == [] {
      assert a + b == b;
    } else {
      var ab := a + b;
      assert ab[0] == a[0] && ab[1..] == a[1..] + b;
      SplitDailyMails(a[1..], b);
    }
  }

  lemma SplitMails(a: seq<Mail>, b: seq<Mail>)
    ensures AlertMails(a + b) == AlertMails(a) + AlertMails(b)
    ensures DailyMails(a + b) == DailyMails(a) + DailyMails(b)
  {
    SplitAlertMails(a, b);
    SplitDailyMails(a, b);
  }

  lemma {:induction false} MailsOfKind(emails: seq<string>, isAlert: bool)
    ensures AlertMails(Mails(emails, isAlert)) == if isAlert then Mails(emails, true) else []
    ensures DailyMails(Mails(emails, isAlert)) == if isAlert then [] else Mails(emails, false)
  {
    if emails != [] {
      var m := Mails(emails, isAlert);
      assert m[1..] == Mails(emails[1..], isAlert);
      MailsOfKind(emails[1..], isAlert);
    }
  }

  /**
   * The alert rule: every subscriber gets an alert exactly when the level is
   * CRITIQUE or ELEVE and differs from the one remembered, and the level
   * remembered becomes the new one, except that MODERE leaves it as it was.
   * The daily rule: every subscriber gets the report exactly when today's has
   * not been sent, and today is remembered.
   */
  lemma StepRules(st: State, alert: DustAlert, today: string, emails: seq<string>)
    requires alert.level in ["CRITIQUE", "ELEVE", "MODERE", "NORMAL"]
    ensures var r := Step(st, alert, today, emails);
      AlertMails(r.mails) == (if Alerting(alert.level) && st.lastAlertLevel != alert.level then Mails(emails, true) else [])
      && r.state.lastAlertLevel == (if alert.level == "MODERE" then st.lastAlertLevel else alert.level)
      && DailyMails(r.mails) == (if st.lastDaily != today then Mails(emails, false) else [])
      && r.state.lastDaily == today
  {
    var alerting := Alerting(alert.level) && st.lastAlertLevel != alert.level;
    var daily := st.lastDaily != today;
    BatchKinds(emails, alerting, daily);
  }

  /** An alert batch followed by a daily batch splits back into the two. */
  lemma BatchKinds(emails: seq<string>, alerting: bool, daily: bool)
    ensures var a, d := (if alerting then Mails(emails, true) else []), (if daily then Mails(emails, false) else []);
      AlertMails(a + d) == a && DailyMails(a + d) == d
  {
    var a := if alerting then Mails(emails, true) else [];
    var d := if daily then Mails(emails, false) else [];
    SplitMails(a, d);
    MailsOfKind(emails, true);
    MailsOfKind(emails, false);
    assert AlertMails([]) == [] && DailyMails([]) == [];
  }

  /** Successive runs of the loop from a saved state, on one date, with a fixed subscriber list. */
  function Run(st: State, readings: seq<Option<Reading>>, today: string, emails: seq<string>): StepResult
    decreases |readings|
  {
    if readings == [] then StepResult(st, [])
    else
      var first := Tick(st, readings[0], today, emails);
      var rest := Run(first.state, readings[1..], today, emails);
      StepResult(rest.state, first.mails + rest.mails)
  }

  predicate AnyFetched(readings: seq<Option<Reading>>) {
    exists i :: 0 <= i < |readings| && readings[i].Some?
  }

  lemma AnyFetchedHead(readings: seq<Option<Reading>>)
    requires readings != []
    ensures AnyFetched(readings) <==> readings[0].Some? || AnyFetched(readings[1..])
  {
    if AnyFetched(readings) && readings[0].None? {
      var i :| 0 <= i < |readings| && readings[i].Some?;
      assert readings[1..][i - 1].Some?;
    }
    if AnyFetched(readings[1..]) {
      var i :| 0 <= i < |readings[1..]| && readings[1..][i].Some?;
      assert readings[i + 1].Some?;
    }
  }

  /** The rules of `Step` seen through `Tick`; a failed fetch changes nothing. */
  lemma TickRules(st: State, reading: Option<Reading>, today: string, emails: seq<string>)
    ensures var r := Tick(st, reading, today, emails);
      reading.None? ==> r == StepResult(st, [])
    ensures var r := Tick(st, reading, today, emails);
      reading.Some? ==>
        var level := GetDustAlert(reading.value.pm10, reading.value.windSpeed).level;
        AlertMails(r.mails) == (if Alerting(level) && st.lastAlertLevel != level then Mails(emails, true) else [])
        && r.state.lastAlertLevel == (if level == "MODERE" then st.lastAlertLevel else level)
        && DailyMails(r.mails) == (if st.lastDaily != today then Mails(emails, false) else [])
        && r.state.lastDaily == today
  {
    if reading.Some? {
      StepRules(st, GetDustAlert(reading.value.pm10, reading.value.windSpeed), today, emails);
    }
  }

  /** One run followed by the rest. */
  lemma RunHead(st: State, readings: seq<Option<Reading>>, today: string, emails: seq<string>)
    requires readings != []
    ensures var first := Tick(st, readings[0], today, emails);
      var rest := Run(first.state, readings[1..], today, emails);
      Run(st, readings, today, emails) == StepResult(rest.state, first.mails + rest.mails)
      && AlertMails(Run(st, readings, today, emails).mails) == AlertMails(first.mails) + AlertMails(rest.mails)
      && DailyMails(Run(st, readings, today, emails).mails) == DailyMails(first.mails) + DailyMails(rest.mails)
  {
    var first := Tick(st, readings[0], today, emails);
    var rest := Run(first.state, readings[1..], today, emails);
    SplitMails(first.mails, rest.mails);
  }

  /**
   * The daily report goes out at most once a date: over any number of runs on
   * one date, each subscriber gets it once if it had not been sent that date
   * and some run fetched its data, and never otherwise.
   */
  lemma {:induction false} DailyOncePerDate(st: State, readings: seq<Option<Reading>>, today: string, emails: seq<string>)
    ensures DailyMails(Run(st, readings, today, emails).mails)
            == if st.lastDaily != today && AnyFetched(readings) then Mails(emails, false) else []
    ensures AnyFetched(readings) || st.lastDaily == today ==> Run(st, readings, today, emails).state.lastDaily == today
    decreases |readings|
  {
    if readings != [] {
      var first := Tick(st, readings[0], today, emails);
      RunHead(st, readings, today, emails);
      AnyFetchedHead(readings);
      TickRules(st, readings[0], today, emails);
      DailyOncePerDate(first.state, readings[1..], today, emails);
      if readings[0].None? {
        assert first.state == st && first.mails == [];
      } else {
        assert first.state.lastDaily == today;
        assert DailyMails(first.mails) == (if st.lastDaily != today then Mails(emails, false) else []);
      }
    }
  }

  predicate SteadyLevel(readings: seq<Option<Reading>>, level: string) {
    forall i :: 0 <= i < |readings| && readings[i].Some? ==>
      GetDustAlert(readings[i].value.pm10, readings[i].value.windSpeed).level == level
  }

  /**
   * A level that holds steady raises at most one alert: each subscriber is
   * alerted once if the level is CRITIQUE or ELEVE and was not the one
   * remembered, and only if some run fetched its data.
   */
  lemma {:induction false} SteadyLevelAlertsOnce(st: State, readings: seq<Option<Reading>>, level: string, today: string, emails: seq<string>)
    requires SteadyLevel(readings, level)
    ensures AlertMails(Run(st, readings, today, emails).mails)
            == if Alerting(level) && st.lastAlertLevel != level && AnyFetched(readings) then Mails(emails, true) else []
    ensures Alerting(level) && (AnyFetched(readings) || st.lastAlertLevel == level) ==>
              Run(st, readings, today, emails).state.lastAlertLevel == level
    decreases |readings|
  {
    if readings != [] {
      var first := Tick(st, readings[0], today, emails);
      assert SteadyLevel(readings[1..], level) by {
        forall i | 0 <= i < |readings[1..]| && readings[1..][i].Some?
          ensures GetDustAlert(readings[1..][i].value.pm10, readings[1..][i].value.windSpeed).level == level
        {
          assert readings[1..][i] == readings[i + 1];
        }
      }
      RunHead(st, readings, today, emails);
      AnyFetchedHead(readings);
      TickRules(st, readings[0], today, emails);
      SteadyLevelAlertsOnce(first.state, readings[1..], level, today, emails);
      if readings[0].None? {
        assert first.state == st && first.mails == [];
      } else {
        assert GetDustAlert(readings[0].value.pm10, readings[0].value.windSpeed).level == level;
        assert Alerting(level) ==> first.state.lastAlertLevel == level;
      }
    }
  }

  /**
   * The level falling from CRITIQUE to ELEVE alerts again: the rule fires on
   * any change between the two alert levels, not only on a rise.
   */
  lemma FallingLevelAlerts(today: string, email: string)
    ensures var st := State(today, "CRITIQUE");
      AlertMails(Step(st, GetDustAlert(150.0, 30.0), today, [email]).mails) == [Mail(email, true)]
  {
    StepRules(State(today, "CRITIQUE"), GetDustAlert(150.0, 30.0), today, [email]);
  }

  // ---------------------------------------------------------------- subscriptions

  predicate NoDuplicates(s: seq<string>) {
    forall i, j :: 0 <= i < j < |s| ==> s[i] != s[j]
  }

  /** `/api/subscribe` over the subscriptions file. */
  class SubscriptionStore {
    /** The saved list; `None` when the file is missing or unreadable, which loads as an empty list. */
    var saved: Option<seq<string>>
    /** Addresses for which the sheet log and the welcome report were scheduled, in order. */
    var scheduled: seq<string>

    ghost predicate Valid()
      reads this
    {
      saved.Some? ==> NoDuplicates(saved.value)
    }

    constructor (initial: Option<seq<string>>)
      requires initial.Some? ==> NoDuplicates(initial.value)
      ensures Valid() && saved == initial && scheduled == []
    {
      saved := initial;
      scheduled := [];
    }

    /** The list as `load_json` returns it. */
    function Loaded(): seq<string>
      reads this
    {
      saved.GetOr([])
    }

    /**
     * A new address is appended, saved and gets its background tasks; a known
     * one changes nothing. The answer is "ok" either way.
     */
    method Subscribe(email: string) returns (status: string)
      requires Valid()
      modifies this
      ensures Valid()
      ensures status == "ok"
      ensures email in old(Loaded()) ==> saved == old(saved) && scheduled == old(scheduled)
      ensures email !in old(Loaded()) ==>
        saved == Some(old(Loaded()) + [email]) && scheduled == old(scheduled) + [email]
      ensures email in Loaded()
    {
      var emails := Loaded();
      if email !in emails {
        emails := emails + [email];
        saved := Some(emails);
        scheduled := scheduled + [email];
      }
      status := "ok";
    }
  }

  /**
   * Subscribing the same address twice stores it once and schedules its
   * welcome once; both calls answer "ok".
   */
  method SubscribeTwice(email: string) returns (stored: nat, welcomed: nat, first: string, second: string)
    ensures stored == 1 && welcomed == 1 && first == second == "ok"
  {
    var store := new SubscriptionStore(None);
    first := store.Subscribe(email);
    second := store.Subscribe(email);
    stored := |store.Loaded()|;
    welcomed := |store.scheduled|;
  }
}
