/**
 * The scheduled daily report job: it reads the subscribers from the first
 * column of a spreadsheet, fetches the current conditions once and sends one
 * report per subscriber, counting the deliveries.
 */
module DailyReport {
  import opened Wrappers
  import opened Text
  import opened Clock
  import Notifier

  /** The job's own copy of the dust classifier. */
  function GetDustAlert(pm10: real, windSpeed: real): (a: Notifier.DustAlert)
    ensures a.level in ["CRITIQUE", "ELEVE", "MODERE", "NORMAL"]
    ensures a.level == "NORMAL" <==> pm10 <= 50.0
  {
    if pm10 > 200.0 && windSpeed > 40.0 then Notifier.DustAlert("CRITIQUE", "#ef4444", "Tempête de sable active")
    else if pm10 > 100.0 && windSpeed > 25.0 then Notifier.DustAlert("ELEVE", "#f97316", "Brume de sable dense")
    else if pm10 > 50.0 then Notifier.DustAlert("MODERE", "#f59e0b", "Poussière en suspension")
    else Notifier.DustAlert("NORMAL", "#10b981", "Conditions claires")
  }

  // ---------------------------------------------------------------- subscribers

  /** A row names a subscriber when it has a non-empty first cell. */
  predicate Listed(row: seq<string>) {
    row != [] && row[0] != ""
  }

  function FirstCells(rows: seq<seq<string>>): (emails: seq<string>)
    ensures |emails| <= |rows|
    ensures forall e :: e in emails <==> exists i :: 0 <= i < |rows| && Listed(rows[i]) && rows[i][0] == e
  {
    if rows == [] then []
    else
      var rest := FirstCells(rows[1..]);
      assert forall i :: 0 < i < |rows| ==> rows[i] == rows[1..][i - 1];
      (if Listed(rows[0]) then [rows[0][0]] else []) + rest
  }

  /** The first cells of two blocks of rows are the first cells of each, in order. */
  lemma {:induction false} FirstCellsAppend(a: seq<seq<string>>, b: seq<seq<string>>)
    ensures FirstCells(a + b) == FirstCells(a) + FirstCells(b)
  {
    if a == [] {
      assert a + b == b;
    } else {
      var ab := a + b;
      var head := if Listed(a[0]) then [a[0][0]] else [];
      assert ab[0] == a[0] && ab[1..] == a[1..] + b;
      assert FirstCells(ab) == head + FirstCells(a[1..] + b);
      FirstCellsAppend(a[1..], b);
      assert head + (FirstCells(a[1..]) + FirstCells(b)) == (head + FirstCells(a[1..])) + FirstCells(b);
    }
  }

  /** One row gives its first cell when it is listed, and nothing otherwise. */
  lemma FirstCellsSingle(row: seq<string>)
    ensures FirstCells([row]) == if Listed(row) then [row[0]] else []
  {
    assert [row][1..] == [];
  }

  /** A header row is skipped: the subscribers are the first cells of the rows below it, in sheet order. */
  lemma SubscribersBelowHeader(header: seq<string>, rows: seq<seq<string>>)
    ensures Subscribers([header] + rows) == FirstCells(rows)
  {
    assert ([header] + rows)[1..] == rows;
  }

  /**
   * The subscribers: the first cell of every row after the header, skipping
   * empty rows and empty cells, in sheet order.
   */
  function Subscribers(rows: seq<seq<string>>): (emails: seq<string>)
    ensures |emails| <= if rows == [] then 0 else |rows| - 1
    ensures "" !in emails
    ensures forall e :: e in emails <==> exists i :: 1 <= i < |rows| && Listed(rows[i]) && rows[i][0] == e
  {
    if rows == [] then []
    else
      assert forall i :: 1 <= i < |rows| ==> rows[i] == rows[1..][i - 1];
      FirstCells(rows[1..])
  }

  // ---------------------------------------------------------------- sending

  predicate Configured(s: Option<string>) {
    s.Some? && s.value != ""
  }

  /**
   * `send_email`: false without SMTP credentials, otherwise whether the
   * server took the message.
   */
  function SendEmail(to: string, user: Option<string>, password: Option<string>, delivered: bool): (ok: bool)
    ensures ok ==> Configured(user) && Configured(password)
    ensures Configured(user) && Configured(password) ==> ok == delivered
  {
    Configured(user) && Configured(password) && delivered
  }

  const SubjectPrefix: string := "🌍 Rapport Quotidien - Atmosphère 3D Djibouti - "

  /** The subject of a report sent on date `d`, which it shows as `dd/mm/YYYY`. */
  function ReportSubject(d: Date): string
    requires 1 <= d.month <= 12 && 1 <= d.day <= 31 && 1 <= d.year <= 9999
  {
    SubjectPrefix + Pad(d.day, 2) + "/" + Pad(d.month, 2) + "/" + Pad(d.year, 4)
  }

  /** The date in the subject reads back, field by field, as the sending date. */
  lemma ReportSubjectDate(d: Date)
    requires 1 <= d.month <= 12 && 1 <= d.day <= 31 && 1 <= d.year <= 9999
    ensures var s := ReportSubject(d); var p := |SubjectPrefix|;
      |s| == p + 10 && s[..p] == SubjectPrefix && s[p + 2] == '/' && s[p + 5] == '/'
      && AllDigits(s[p..p + 2]) && DigitsValue(s[p..p + 2]) == d.day
      && AllDigits(s[p + 3..p + 5]) && DigitsValue(s[p + 3..p + 5]) == d.month
      && AllDigits(s[p + 6..]) && DigitsValue(s[p + 6..]) == d.year
  {
    var s := ReportSubject(d);
    var p := |SubjectPrefix|;
    assert s[p..p + 2] == Pad(d.day, 2);
    assert s[p + 3..p + 5] == Pad(d.month, 2);
    assert s[p + 6..] == Pad(d.year, 4);
  }

  /** The number of `true` results, as `sum(results)` counts them. */
  function CountSent(results: seq<bool>): nat {
    if results == [] then 0
    else CountSent(results[..|results| - 1]) + (if results[|results| - 1] then 1 else 0)
  }

  /** The count never exceeds the number of sends, and reaches it exactly when every send succeeded. */
  lemma {:induction false} CountSentBounds(results: seq<bool>)
    ensures CountSent(results) <= |results|
    ensures CountSent(results) == |results| <==> forall i :: 0 <= i < |results| ==> results[i]
    ensures CountSent(results) == 0 <==> forall i :: 0 <= i < |results| ==> !results[i]
  {
    if results != [] {
      var init := results[..|results| - 1];
      CountSentBounds(init);
      assert forall i :: 0 <= i < |init| ==> init[i] == results[i];
    }
  }

  /** The result of each subscriber's send, in order. */
  function Results(emails: seq<string>, user: Option<string>, password: Option<string>, delivers: string -> bool): (r: seq<bool>)
    ensures |r| == |emails|
    ensures forall i :: 0 <= i < |r| ==> r[i] == SendEmail(emails[i], user, password, delivers(emails[i]))
  {
    seq(|emails|, i requires 0 <= i < |emails| => SendEmail(emails[i], user, password, delivers(emails[i])))
  }

  /** Without credentials the job reports no deliveries, whatever the server would have accepted. */
  lemma NoCredentialsNoneSent(emails: seq<string>, user: Option<string>, password: Option<string>, delivers: string -> bool)
    requires !Configured(user) || !Configured(password)
    ensures CountSent(Results(emails, user, password, delivers)) == 0
  {
    CountSentBounds(Results(emails, user, password, delivers));
  }

  /** Sends the report to each subscriber in turn and counts the successes. */
  method SendAll(emails: seq<string>, user: Option<string>, password: Option<string>, delivers: string -> bool)
    returns (sent: nat)
    ensures sent == CountSent(Results(emails, user, password, delivers))
  {
    var results: seq<bool> := [];
    sent := 0;
    for i := 0 to |emails|
      invariant results == Results(emails[..i], user, password, delivers)
      invariant sent == CountSent(results)
    {
      var ok := SendEmail(emails[i], user, password, delivers(emails[i]));
      assert results + [ok] == Results(emails[..i + 1], user, password, delivers);
      results := results + [ok];
      assert results[..|results| - 1] == Results(emails[..i], user, password, delivers);
      sent := sent + (if ok then 1 else 0);
    }
    assert emails[..|emails|] == emails;
  }

  // ---------------------------------------------------------------- the job

  datatype Reading = Reading(pm10: real, windSpeed: real, weatherCode: int)

  datatype Outcome =
    | ConfigMissing
    | SheetUnreadable
    | NoSubscribers
    | FetchFailed
    | Report(alert: Notifier.DustAlert, weatherLabel: string, sent: nat, total: nat)

  /** The process exit status of each outcome. */
  function ExitCode(o: Outcome): (code: int)
    ensures code == 0 <==> o.NoSubscribers? || o.Report?
  {
    match o
    case NoSubscribers => 0
    case Report(_, _, _, _) => 0
    case _ => 1
  }

  /**
   * `main`: missing configuration, an unreadable sheet and a failed fetch end
   * the job with status 1; no subscribers ends it quietly before any fetch;
   * otherwise every subscriber is sent the report and the successes are counted.
   * `sheet` is the sheet's rows, or `None` when it cannot be read; `reading` is
   * the fetched conditions, or `None` when the fetch fails; `delivers` says
   * whether the mail server accepts a message to an address.
   */
  method RunReport(sheetId: Option<string>, credentialsFileExists: bool, sheet: Option<seq<seq<string>>>,
                   reading: Option<Reading>, user: Option<string>, password: Option<string>,
                   delivers: string -> bool)
    returns (outcome: Outcome, fetched: bool, attempted: seq<string>)
    ensures !Configured(sheetId) || !credentialsFileExists ==> outcome == ConfigMissing
    ensures Configured(sheetId) && credentialsFileExists && sheet.None? ==> outcome == SheetUnreadable
    ensures fetched <==> Configured(sheetId) && credentialsFileExists && sheet.Some? && Subscribers(sheet.value) != []
    ensures fetched && reading.None? ==> outcome == FetchFailed
    ensures attempted != [] ==> fetched && reading.Some? && attempted == Subscribers(sheet.value)
    ensures fetched && reading.Some? ==>
      attempted == Subscribers(sheet.value)
      && outcome == Report(GetDustAlert(reading.value.pm10, reading.value.windSpeed),
                           Notifier.WeatherLabel(reading.value.weatherCode),
                           CountSent(Results(attempted, user, password, delivers)), |attempted|)
    ensures outcome.Report? ==> outcome.sent <= outcome.total && outcome.total > 0
    ensures outcome == NoSubscribers <==> Configured(sheetId) && credentialsFileExists && sheet.Some? && Subscribers(sheet.value) == []
  {
    fetched, attempted := false, [];
    if !Configured(sheetId) || !credentialsFileExists {
      return ConfigMissing, fetched, attempted;
    }
    if sheet.None? {
      return SheetUnreadable, fetched, attempted;
    }
    var emails := Subscribers(sheet.value);
    if emails == [] {
      return NoSubscribers, fetched, attempted;
    }
    fetched := true;
    if reading.None? {
      return FetchFailed, fetched, attempted;
    }
    var r := reading.value;
    var sent := SendAll(emails, user, password, delivers);
    CountSentBounds(Results(emails, user, password, delivers));
    attempted := emails;
    outcome := Report(GetDustAlert(r.pm10, r.windSpeed), Notifier.WeatherLabel(r.weatherCode), sent, |emails|);
  }
}
