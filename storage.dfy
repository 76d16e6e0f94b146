/**
 * The browser key-value store every component reads and rewrites, one field
 * per key. An absent list key reads as the empty list and an absent map key
 * as the empty map, exactly as the `|| "[]"` / `|| "{}"` defaults do.
 */
module Storage {
  import opened Basics
  import opened PageTypes
  import opened Records

  /** A snapshot of every key, so that contracts can say what did not change. */
  datatype StoreState = StoreState(
    enhancedPages: seq<MainPage>,
    adminPages: seq<SimplePage>,
    adminUsers: seq<User>,
    pendingRegistrations: seq<Registration>,
    pageLayouts: map<string, Layout>,
    autoSaveLog: seq<LogEntry>,
    lastAutoSave: Option<string>,
    lastLayoutUpdate: Option<string>,
    userRole: Option<string>,
    username: Option<string>,
    userId: Option<string>)

  /**
   * The store after one `saveToDatabase(action, data)` call made at `now` by
   * a component whose role state is `role`: one entry is appended to the
   * log, stamped with the session's username, and `lastAutoSave` is set to
   * the same timestamp.
   */
  function Logged(s: StoreState, now: string, action: string, data: map<string, string>, role: string): (r: StoreState)
    ensures |r.autoSaveLog| == |s.autoSaveLog| + 1
    ensures r.autoSaveLog[..|s.autoSaveLog|] == s.autoSaveLog
    ensures r.autoSaveLog[|s.autoSaveLog|].timestamp == now
    ensures r.autoSaveLog[|s.autoSaveLog|].user == s.username
    ensures r.lastAutoSave == Some(now)
  {
    s.(autoSaveLog := s.autoSaveLog + [LogEntry(now, action, data, s.username, role)],
       lastAutoSave := Some(now))
  }

  /** Logging touches no key other than the log and its timestamp. */
  lemma LoggedChangesOnlyLog(s: StoreState, now: string, action: string, data: map<string, string>, role: string)
    ensures Logged(s, now, action, data, role).(autoSaveLog := s.autoSaveLog, lastAutoSave := s.lastAutoSave) == s
  {
  }

  /** The log is append-only: a run of saves keeps every earlier entry in place. */
  lemma {:induction false} LogAppendOnly(s: StoreState, now: string, action: string, data: map<string, string>, role: string,
                                         now2: string, action2: string, data2: map<string, string>, role2: string)
    ensures var t := Logged(Logged(s, now, action, data, role), now2, action2, data2, role2);
      |t.autoSaveLog| == |s.autoSaveLog| + 2 &&
      t.autoSaveLog[..|s.autoSaveLog|] == s.autoSaveLog &&
      t.autoSaveLog[|s.autoSaveLog|].action == action &&
      t.autoSaveLog[|s.autoSaveLog| + 1].action == action2 &&
      t.lastAutoSave == Some(now2)
  {
    var m := Logged(s, now, action, data, role);
    var t := Logged(m, now2, action2, data2, role2);
    assert t.autoSaveLog[..|m.autoSaveLog|] == m.autoSaveLog;
    assert t.autoSaveLog[..|s.autoSaveLog|] == m.autoSaveLog[..|s.autoSaveLog|];
  }

  class LocalStore {
    var enhancedPages: seq<MainPage>
    var adminPages: seq<SimplePage>
    var adminUsers: seq<User>
    var pendingRegistrations: seq<Registration>
    var pageLayouts: map<string, Layout>
    var autoSaveLog: seq<LogEntry>
    var lastAutoSave: Option<string>
    var lastLayoutUpdate: Option<string>
    var userRole: Option<string>
    var username: Option<string>
    var userId: Option<string>

    /** A store with no keys set. */
    constructor ()
      ensures State() == StoreState([], [], [], [], map[], [], None, None, None, None, None)
    {
      enhancedPages, adminPages, adminUsers, pendingRegistrations := [], [], [], [];
      pageLayouts, autoSaveLog := map[], [];
      lastAutoSave, lastLayoutUpdate, userRole, username, userId := None, None, None, None, None;
    }

    function State(): StoreState
      reads this
    {
      StoreState(enhancedPages, adminPages, adminUsers, pendingRegistrations, pageLayouts,
                 autoSaveLog, lastAutoSave, lastLayoutUpdate, userRole, username, userId)
    }

    /**
     * `saveToDatabase`: the shared audit hook of the dashboard shell and the
     * sidebar. It pushes one entry onto the stored log and sets
     * `lastAutoSave`.
     */
    method SaveToDatabase(now: string, action: string, data: map<string, string>, role: string)
      modifies this
      ensures State() == Logged(old(State()), now, action, data, role)
    {
      var entry := LogEntry(now, action, data, username, role);
      var saveLog := autoSaveLog;
      saveLog := saveLog + [entry];
      autoSaveLog := saveLog;
      lastAutoSave := Some(now);
    }
  }
}
