/** The per-user session store of services/sessionManager.ts: an interview in
    progress is kept in the browser's sessionStorage with a backup copy in
    localStorage, under keys that carry the user's id. A stored session is checked
    for its owner, its age and its format version when it is loaded. */
module SessionManager {
  import opened Text
  import opened InterviewTypes

  /** `SESSION_TIMEOUT`: two hours in milliseconds. */
  const Timeout: int := 2 * 60 * 60 * 1000

  const CurrentVersion: string := "3.0"

  /** The keys of the format before per-user keys. */
  const LegacySessionKey: string := "interviewSession"
  const LegacyBackupKey: string := "interviewSessionBackup"

  /** `getSessionKey(userId)`. */
  function SessionKey(userId: string): string {
    "interview_" + userId + "_session"
  }

  /** `getBackupKey(userId)`. */
  function BackupKey(userId: string): string {
    "interview_" + userId + "_backup"
  }

  /** A stored value: a session record, or text that does not parse. */
  datatype Entry = Saved(session: Session) | Unreadable

  /** The contents of sessionStorage and localStorage. */
  datatype Stores = Stores(session: map<string, Entry>, local: map<string, Entry>)

  /** The outcome of a load: the session handed back, if any, and the stores after. */
  datatype Loaded = Loaded(result: Option<Session>, stores: Stores)

  // ===========================================================================
  // Keys

  /** The two keys of one user differ, the keys of different users differ, no
      user's key is a legacy key, and every one of them mentions "interview". */
  lemma KeysDistinct(u: string, v: string)
    ensures SessionKey(u) != BackupKey(v)
    ensures u != v ==> SessionKey(u) != SessionKey(v) && BackupKey(u) != BackupKey(v)
    ensures SessionKey(u) != LegacySessionKey && SessionKey(u) != LegacyBackupKey
    ensures BackupKey(u) != LegacySessionKey && BackupKey(u) != LegacyBackupKey
    ensures Contains(SessionKey(u), "interview") && Contains(BackupKey(u), "interview")
  {
    assert SessionKey(u)[|SessionKey(u)| - 1] == 'n';
    assert BackupKey(v)[|BackupKey(v)| - 1] == 'p';
    assert SessionKey(u)[10..10 + |u|] == u;
    assert BackupKey(u)[10..10 + |u|] == u;
    assert SessionKey(v)[10..10 + |v|] == v;
    assert BackupKey(v)[10..10 + |v|] == v;
    assert SessionKey(u)[9] == '_' && BackupKey(u)[9] == '_';
    assert LegacySessionKey[9] == 'S' && LegacyBackupKey[9] == 'S';
    assert SessionKey(u)[..9] == "interview";
    assert BackupKey(u)[..9] == "interview";
  }

  // ===========================================================================
  // What each operation does to the stores

  /** The record `saveInterviewSession` writes: the session with the owner, the
      current format version and the save time. */
  function Stamp(s: Session, userId: string, now: int): Session {
    s.(userId := userId, lastUpdated := Some(now), version := CurrentVersion)
  }

  /** `saveInterviewSession(session, userId)`: without a user nothing is written,
      otherwise the stamped record goes under both of the user's keys. */
  function SaveSpec(st: Stores, s: Session, userId: string, now: int): Stores {
    if userId == "" then st
    else Stores(st.session[SessionKey(userId) := Saved(Stamp(s, userId, now))],
                st.local[BackupKey(userId) := Saved(Stamp(s, userId, now))])
  }

  /** `clearInterviewSession(userId)`: the user's two keys and the two legacy keys
      are removed. */
  function ClearSpec(st: Stores, userId: string): Stores {
    if userId == "" then st
    else Stores(st.session - {SessionKey(userId), LegacySessionKey},
                st.local - {BackupKey(userId), LegacyBackupKey})
  }

  /** `session.lastUpdated || session.startTime`. */
  function LastActive(s: Session): int {
    if s.lastUpdated.Some? && s.lastUpdated.value != 0 then s.lastUpdated.value else s.startTime
  }

  /** How a found session is judged, in the order the checks run. */
  datatype Verdict = Mismatch | Expired | Outdated | Current

  function VerdictFor(s: Session, userId: string, now: int): Verdict {
    if s.userId != "" && s.userId != userId then Mismatch
    else if now - LastActive(s) > Timeout then Expired
    else if s.version == "" || LexLess(s.version, CurrentVersion) then Outdated
    else Current
  }

  /** `upgradeSessionFormat(session, userId)`. */
  function Upgrade(s: Session, userId: string, now: int): Session {
    s.(userId := userId, version := CurrentVersion, lastUpdated := Some(now),
       conversationQuality := Some(Moderate), coveredTopics := Some([]),
       interviewMetrics := Some(SessionMetrics(0, 0)))
  }

  /** The checks applied to a session found for `userId`. */
  function CheckFound(st: Stores, s: Session, userId: string, now: int): Loaded {
    match VerdictFor(s, userId, now)
    case Mismatch => Loaded(None, ClearSpec(st, userId))
    case Expired => Loaded(None, ClearSpec(st, userId))
    case Outdated =>
      var up := Upgrade(s, userId, now);
      Loaded(Some(up), SaveSpec(st, up, userId, now))
    case Current => Loaded(Some(s), st)
  }

  /** `loadInterviewSession(userId)`: sessionStorage first, then the backup, which is
      copied back into sessionStorage; an unreadable entry clears the user's keys. */
  function LoadSpec(st: Stores, userId: string, now: int): Loaded {
    if userId == "" then Loaded(None, st)
    else if SessionKey(userId) in st.session then
      match st.session[SessionKey(userId)]
      case Unreadable => Loaded(None, ClearSpec(st, userId))
      case Saved(s) => CheckFound(st, s, userId, now)
    else if BackupKey(userId) !in st.local then Loaded(None, st)
    else
      match st.local[BackupKey(userId)]
      case Unreadable => Loaded(None, ClearSpec(st, userId))
      case Saved(s) => CheckFound(Stores(st.session[SessionKey(userId) := Saved(s)], st.local), s, userId, now)
  }

  /** `recoverSession(userId)`: the backup alone is consulted and, when it belongs
      to the user, copied into sessionStorage; nothing is removed. */
  function RecoverSpec(st: Stores, userId: string): Loaded {
    if userId == "" || BackupKey(userId) !in st.local then Loaded(None, st)
    else
      match st.local[BackupKey(userId)]
      case Unreadable => Loaded(None, st)
      case Saved(s) =>
        if s.userId != "" && s.userId != userId then Loaded(None, st)
        else Loaded(Some(s), Stores(st.session[SessionKey(userId) := Saved(s)], st.local))
  }

  /** One storage after `clearAllInterviewSessions()`. */
  function WithoutInterviewKeys(m: map<string, Entry>): map<string, Entry> {
    map k | k in m && !Contains(k, "interview") :: m[k]
  }

  // ===========================================================================
  // Properties

  /** A save followed by a load of the same user, within the timeout and with no
      write in between, hands back the saved record and changes nothing. */
  lemma SaveThenLoad(st: Stores, s: Session, userId: string, now: int, later: int)
    requires userId != "" && now != 0 && later - now <= Timeout
    ensures LoadSpec(SaveSpec(st, s, userId, now), userId, later)
      == Loaded(Some(Stamp(s, userId, now)), SaveSpec(st, s, userId, now))
  {
    LexLessIrreflexive(CurrentVersion);
  }

  /** After a clear, loading the same user finds nothing and changes nothing. */
  lemma ClearThenLoad(st: Stores, userId: string, now: int)
    requires userId != ""
    ensures LoadSpec(ClearSpec(st, userId), userId, now) == Loaded(None, ClearSpec(st, userId))
  {
  }

  /** What a load decides about the session it finds: a session of another user or
      one idle for more than the timeout is refused and both of the user's keys are
      removed; an outdated one is upgraded and saved again; a current one is handed
      back as it is. The session from sessionStorage wins over the backup. */
  lemma LoadOutcomes(st: Stores, userId: string, now: int, s: Session)
    requires userId != ""
    requires (SessionKey(userId) in st.session && st.session[SessionKey(userId)] == Saved(s))
          || (SessionKey(userId) !in st.session && BackupKey(userId) in st.local
              && st.local[BackupKey(userId)] == Saved(s))
    ensures var l := LoadSpec(st, userId, now);
      && (l.result == None <==> VerdictFor(s, userId, now) in {Mismatch, Expired})
      && (l.result == None ==> SessionKey(userId) !in l.stores.session && BackupKey(userId) !in l.stores.local)
      && (VerdictFor(s, userId, now) == Current ==> l.result == Some(s))
      && (VerdictFor(s, userId, now) == Outdated ==>
            l.result == Some(Upgrade(s, userId, now)) && l.result.value.version == CurrentVersion
            && l.stores.session[SessionKey(userId)] == Saved(Upgrade(s, userId, now))
            && l.stores.local[BackupKey(userId)] == Saved(Upgrade(s, userId, now)))
      && (l.result != None ==> l.stores.session[SessionKey(userId)] == Saved(l.result.value))
  {
    var v := VerdictFor(s, userId, now);
    if v == Outdated {
      assert Stamp(Upgrade(s, userId, now), userId, now) == Upgrade(s, userId, now);
    }
  }

  /** A session is refused whenever the stored owner is someone else, whatever its
      age or version. */
  lemma ForeignSessionRefused(st: Stores, userId: string, now: int, s: Session)
    requires userId != "" && s.userId != "" && s.userId != userId
    requires SessionKey(userId) in st.session && st.session[SessionKey(userId)] == Saved(s)
    ensures LoadSpec(st, userId, now) == Loaded(None, ClearSpec(st, userId))
  {
  }

  /** Clearing removes exactly the user's two keys and the legacy keys; clearing
      everything removes exactly the keys that mention "interview"; other entries
      keep their values. */
  lemma ClearsAreExact(st: Stores, userId: string)
    requires userId != ""
    ensures forall k :: k in ClearSpec(st, userId).session <==>
      k in st.session && k != SessionKey(userId) && k != LegacySessionKey
    ensures forall k :: k in ClearSpec(st, userId).local <==>
      k in st.local && k != BackupKey(userId) && k != LegacyBackupKey
    ensures forall k | k in ClearSpec(st, userId).session :: ClearSpec(st, userId).session[k] == st.session[k]
    ensures forall k | k in ClearSpec(st, userId).local :: ClearSpec(st, userId).local[k] == st.local[k]
    ensures forall k :: k in WithoutInterviewKeys(st.session) <==> k in st.session && !Contains(k, "interview")
    ensures SessionKey(userId) !in WithoutInterviewKeys(st.session)
    ensures BackupKey(userId) !in WithoutInterviewKeys(st.local)
  {
    KeysDistinct(userId, userId);
  }

  /** Saving or clearing one user leaves what another user loads unchanged. */
  lemma OtherUsersUntouched(st: Stores, s: Session, u: string, v: string, now: int, later: int)
    requires u != v && v != ""
    ensures LoadSpec(SaveSpec(st, s, u, now), v, later).result == LoadSpec(st, v, later).result
    ensures LoadSpec(ClearSpec(st, u), v, later).result == LoadSpec(st, v, later).result
  {
    KeysDistinct(u, v);
    KeysDistinct(v, u);
  }

  /** The format version is compared as text, so a newer version "10.0" counts as
      older than "3.0" and a fresh session of that version is rewritten as "3.0". */
  lemma VersionComparedAsText(s: Session, userId: string, now: int)
    requires s.version == "10.0" && s.userId == userId && now - LastActive(s) <= Timeout
    ensures VerdictFor(s, userId, now) == Outdated
    ensures Upgrade(s, userId, now).version == CurrentVersion
  {
    assert LexLess("10.0", CurrentVersion);
  }

  /** Recovery consults the backup alone: it removes nothing and leaves the backups
      as they are, hands back the user's own or unowned backup, and copies it into
      sessionStorage under the user's key without touching any other key. */
  lemma RecoverOutcomes(st: Stores, userId: string)
    ensures var r := RecoverSpec(st, userId);
      && r.stores.local == st.local
      && st.session.Keys <= r.stores.session.Keys
      && (forall k | k in st.session && k != SessionKey(userId) :: r.stores.session[k] == st.session[k])
      && (r.result.Some? <==>
            userId != "" && BackupKey(userId) in st.local && st.local[BackupKey(userId)].Saved?
            && st.local[BackupKey(userId)].session.userId in {"", userId})
      && (r.result.Some? ==>
            st.local[BackupKey(userId)] == Saved(r.result.value)
            && r.stores.session[SessionKey(userId)] == Saved(r.result.value))
      && (r.result.None? ==> r.stores == st)
  {
  }

  /** A save followed by a recovery of the same user hands back the saved record
      and changes nothing, as a load would. */
  lemma SaveThenRecover(st: Stores, s: Session, userId: string, now: int)
    requires userId != ""
    ensures RecoverSpec(SaveSpec(st, s, userId, now), userId)
      == Loaded(Some(Stamp(s, userId, now)), SaveSpec(st, s, userId, now))
  {
    var saved := SaveSpec(st, s, userId, now);
    assert saved.session[SessionKey(userId) := Saved(Stamp(s, userId, now))] == saved.session;
  }

  // ===========================================================================
  // The browser storage

  class BrowserStorage {
    var sessionStorage: map<string, Entry>
    var localStorage: map<string, Entry>

    function Contents(): Stores
      reads this
    {
      Stores(sessionStorage, localStorage)
    }

    constructor (session: map<string, Entry>, local: map<string, Entry>)
      ensures Contents() == Stores(session, local)
    {
      sessionStorage := session;
      localStorage := local;
    }

    method Save(s: Session, userId: string, now: int)
      modifies this
      ensures Contents() == SaveSpec(old(Contents()), s, userId, now)
    {
      if userId == "" {
        return;
      }
      var stamped := Stamp(s, userId, now);
      sessionStorage := sessionStorage[SessionKey(userId) := Saved(stamped)];
      localStorage := localStorage[BackupKey(userId) := Saved(stamped)];
    }

    method Clear(userId: string)
      modifies this
      ensures Contents() == ClearSpec(old(Contents()), userId)
    {
      if userId == "" {
        return;
      }
      sessionStorage := sessionStorage - {SessionKey(userId)};
      localStorage := localStorage - {BackupKey(userId)};
      sessionStorage := sessionStorage - {LegacySessionKey};
      localStorage := localStorage - {LegacyBackupKey};
    }

    method Load(userId: string, now: int) returns (result: Option<Session>)
      modifies this
      ensures Loaded(result, Contents()) == LoadSpec(old(Contents()), userId, now)
    {
      if userId == "" {
        return None;
      }
      var found: Session;
      if SessionKey(userId) in sessionStorage {
        match sessionStorage[SessionKey(userId)] {
          case Unreadable =>
            Clear(userId);
            return None;
          case Saved(s) =>
            found := s;
        }
      } else {
        if BackupKey(userId) !in localStorage {
          return None;
        }
        match localStorage[BackupKey(userId)] {
          case Unreadable =>
            Clear(userId);
            return None;
          case Saved(s) =>
            found := s;
            sessionStorage := sessionStorage[SessionKey(userId) := Saved(s)];
        }
      }
      result := Check(found, userId, now);
    }

    /** The owner, age and version checks on a found session. */
    method Check(s: Session, userId: string, now: int) returns (result: Option<Session>)
      modifies this
      ensures Loaded(result, Contents()) == CheckFound(old(Contents()), s, userId, now)
    {
      if s.userId != "" && s.userId != userId {
        Clear(userId);
        return None;
      }
      if now - LastActive(s) > Timeout {
        Clear(userId);
        return None;
      }
      if s.version == "" || LexLess(s.version, CurrentVersion) {
        var up := Upgrade(s, userId, now);
        Save(up, userId, now);
        return Some(up);
      }
      return Some(s);
    }

    method Recover(userId: string) returns (result: Option<Session>)
      modifies this
      ensures Loaded(result, Contents()) == RecoverSpec(old(Contents()), userId)
    {
      if userId == "" || BackupKey(userId) !in localStorage {
        return None;
      }
      match localStorage[BackupKey(userId)] {
        case Unreadable =>
          return None;
        case Saved(s) =>
          if s.userId != "" && s.userId != userId {
            return None;
          }
          sessionStorage := sessionStorage[SessionKey(userId) := Saved(s)];
          return Some(s);
      }
    }

    /** `clearAllInterviewSessions()`: in each storage the keys mentioning
        "interview" are collected, then removed. */
    method ClearAll()
      modifies this
      ensures sessionStorage == WithoutInterviewKeys(old(sessionStorage))
      ensures localStorage == WithoutInterviewKeys(old(localStorage))
    {
      var doomed := InterviewKeys(localStorage);
      localStorage := localStorage - doomed;
      doomed := InterviewKeys(sessionStorage);
      sessionStorage := sessionStorage - doomed;
    }
  }

  /** The keys of one storage that mention "interview", visited one at a time. */
  method InterviewKeys(m: map<string, Entry>) returns (found: set<string>)
    ensures found == set k | k in m && Contains(k, "interview")
    ensures m - found == WithoutInterviewKeys(m)
  {
    found := {};
    var rest := m.Keys;
    while rest != {}
      invariant rest <= m.Keys
      invariant found == set k | k in m && k !in rest && Contains(k, "interview")
      decreases |rest|
    {
      var k :| k in rest;
      if Contains(k, "interview") {
        found := found + {k};
      }
      rest := rest - {k};
    }
  }
}
