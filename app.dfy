/** Session bookkeeping and view selection of the application shell (App.tsx).
  * Dates are calendar day numbers in the user's local time zone. */
module App {
  import opened Wrappers
  import opened Profiles
  import opened Reports
  import opened Levels

  /** `isSameDay`: year, month and day of month agree, i.e. the same calendar day. */
  predicate IsSameDay(day1: int, day2: int) {
    day1 == day2
  }

  /** `areConsecutiveDays`: after both dates are moved to local midnight, the second is
    * one (rounded) day after the first. */
  predicate AreConsecutiveDays(day1: int, day2: int) {
    day2 - day1 == 1
  }

  const Session1 := "session_1"
  const Session5 := "session_5"
  const Session10 := "session_10"
  const Streak3 := "streak_3"
  const Streak7 := "streak_7"
  const Level5 := "level_5"
  const Level10 := "level_10"
  const GrammarPerfect := "grammar_perfect"

  predicate NoDuplicates(ids: seq<string>) {
    forall i, j :: 0 <= i < j < |ids| ==> ids[i] != ids[j]
  }

  /** `if (cond && !unlocked.includes(id)) unlocked.push(id)`. */
  method UnlockIf(unlocked: seq<string>, id: string, cond: bool) returns (r: seq<string>)
    ensures id in r <==> id in unlocked || cond
    ensures r == unlocked || r == unlocked + [id]
    ensures id in unlocked || !cond ==> r == unlocked
    ensures forall a :: a in r ==> a in unlocked || a == id
    ensures NoDuplicates(unlocked) ==> NoDuplicates(r)
  {
    r := unlocked;
    if cond && id !in unlocked {
      r := r + [id];
    }
  }

  /** The achievement ids and the rule that unlocks each, given the session count, streak
    * and level after the session and whether the report found no grammar issue. */
  const AchievementIds: seq<string> :=
    [Session1, Session5, Session10, Streak3, Streak7, Level5, Level10, GrammarPerfect]

  predicate RuleFires(id: string, sessions: int, streak: int, level: int, perfectGrammar: bool) {
    if id == Session1 then true
    else if id == Session5 then sessions >= 5
    else if id == Session10 then sessions >= 10
    else if id == Streak3 then streak >= 3
    else if id == Streak7 then streak >= 7
    else if id == Level5 then level >= 5
    else if id == Level10 then level >= 10
    else if id == GrammarPerfect then perfectGrammar
    else false
  }

  /** The condition of the `k`-th unlock check, in the order of `AchievementIds`. */
  predicate RuleAt(k: nat, sessions: int, streak: int, level: int, perfectGrammar: bool) {
    match k
    case 0 => true
    case 1 => sessions >= 5
    case 2 => sessions >= 10
    case 3 => streak >= 3
    case 4 => streak >= 7
    case 5 => level >= 5
    case 6 => level >= 10
    case 7 => perfectGrammar
    case _ => false
  }

  /** The `k`-th check is the rule of the `k`-th id. */
  lemma RuleAtNamesRule(k: nat, sessions: int, streak: int, level: int, perfectGrammar: bool)
    requires k < |AchievementIds|
    ensures RuleAt(k, sessions, streak, level, perfectGrammar) ==
            RuleFires(AchievementIds[k], sessions, streak, level, perfectGrammar)
  {
    AchievementIdsDistinct();
  }

  lemma AchievementIdsDistinct()
    ensures NoDuplicates(AchievementIds)
  {
  }

  /** The first `k` unlock checks have been applied to `unlocked`, giving `r`. */
  predicate Applied(unlocked: seq<string>, r: seq<string>, k: nat,
                    sessions: int, streak: int, level: int, perfectGrammar: bool)
    requires k <= |AchievementIds|
  {
    unlocked <= r &&
    (forall i :: 0 <= i < k ==>
       (AchievementIds[i] in r <==>
        AchievementIds[i] in unlocked || RuleAt(i, sessions, streak, level, perfectGrammar))) &&
    (forall a :: a in r ==> a in unlocked || a in AchievementIds[..k]) &&
    (NoDuplicates(unlocked) ==> NoDuplicates(r))
  }

  /** One more unlock check keeps `Applied` true for one more rule. */
  lemma {:induction false} ApplyNext(unlocked: seq<string>, r: seq<string>, next: seq<string>, k: nat,
                                     sessions: int, streak: int, level: int, perfectGrammar: bool)
    requires k < |AchievementIds|
    requires Applied(unlocked, r, k, sessions, streak, level, perfectGrammar)
    requires var id := AchievementIds[k];
             (id in next <==> id in r || RuleAt(k, sessions, streak, level, perfectGrammar)) &&
             (next == r || next == r + [id]) &&
             (NoDuplicates(r) ==> NoDuplicates(next))
    ensures Applied(unlocked, next, k + 1, sessions, streak, level, perfectGrammar)
  {
    var id := AchievementIds[k];
    AchievementIdsDistinct();
    assert AchievementIds[..k + 1] == AchievementIds[..k] + [id];
    forall i | 0 <= i < k
      ensures AchievementIds[i] in next <==> AchievementIds[i] in r
    {
      assert AchievementIds[i] != id;
    }
    forall a | a in next ensures a in unlocked || a in AchievementIds[..k + 1] {
      if a != id { assert a in r; }
    }
    assert id in unlocked ==> id in r;
  }

  /** Applies the unlock check of rule `k`, whose id is `id` and whose condition is `cond`. */
  method UnlockNext(unlocked: seq<string>, r: seq<string>, k: nat, id: string, cond: bool,
                    ghost sessions: int, ghost streak: int, ghost level: int, ghost perfectGrammar: bool)
    returns (next: seq<string>)
    requires k < |AchievementIds| && id == AchievementIds[k]
    requires cond == RuleAt(k, sessions, streak, level, perfectGrammar)
    requires Applied(unlocked, r, k, sessions, streak, level, perfectGrammar)
    ensures Applied(unlocked, next, k + 1, sessions, streak, level, perfectGrammar)
  {
    next := UnlockIf(r, id, cond);
    ApplyNext(unlocked, r, next, k, sessions, streak, level, perfectGrammar);
  }

  /** The eight unlock checks of `handleSessionComplete`, applied in order to a copy of the list. */
  method UnlockAchievements(unlocked: seq<string>, sessions: int, streak: int, level: int, perfectGrammar: bool)
    returns (r: seq<string>)
    ensures unlocked <= r
    ensures forall id :: id in AchievementIds ==>
              (id in r <==> id in unlocked || RuleFires(id, sessions, streak, level, perfectGrammar))
    ensures forall a :: a in r ==> a in unlocked || a in AchievementIds
    ensures NoDuplicates(unlocked) ==> NoDuplicates(r)
  {
    r := unlocked;
    r := UnlockNext(unlocked, r, 0, Session1, true, sessions, streak, level, perfectGrammar);
    r := UnlockNext(unlocked, r, 1, Session5, sessions >= 5, sessions, streak, level, perfectGrammar);
    r := UnlockNext(unlocked, r, 2, Session10, sessions >= 10, sessions, streak, level, perfectGrammar);
    r := UnlockNext(unlocked, r, 3, Streak3, streak >= 3, sessions, streak, level, perfectGrammar);
    r := UnlockNext(unlocked, r, 4, Streak7, streak >= 7, sessions, streak, level, perfectGrammar);
    r := UnlockNext(unlocked, r, 5, Level5, level >= 5, sessions, streak, level, perfectGrammar);
    r := UnlockNext(unlocked, r, 6, Level10, level >= 10, sessions, streak, level, perfectGrammar);
    r := UnlockNext(unlocked, r, 7, GrammarPerfect, perfectGrammar, sessions, streak, level, perfectGrammar);
    AllApplied(unlocked, r, sessions, streak, level, perfectGrammar);
  }

  /** Once all eight checks are applied, every badge is held exactly when it was held before
    * or its rule fires, and nothing but badges has been added. */
  lemma AllApplied(unlocked: seq<string>, r: seq<string>, sessions: int, streak: int, level: int, perfectGrammar: bool)
    requires Applied(unlocked, r, |AchievementIds|, sessions, streak, level, perfectGrammar)
    ensures unlocked <= r
    ensures forall id :: id in AchievementIds ==>
              (id in r <==> id in unlocked || RuleFires(id, sessions, streak, level, perfectGrammar))
    ensures forall a :: a in r ==> a in unlocked || a in AchievementIds
    ensures NoDuplicates(unlocked) ==> NoDuplicates(r)
  {
    assert AchievementIds[..|AchievementIds|] == AchievementIds;
    forall id | id in AchievementIds
      ensures id in r <==> id in unlocked || RuleFires(id, sessions, streak, level, perfectGrammar)
    {
      var i :| 0 <= i < |AchievementIds| && AchievementIds[i] == id;
      RuleAtNamesRule(i, sessions, streak, level, perfectGrammar);
    }
  }

  /** `u` is the profile after one completed session of `user`, as `handleSessionComplete`
    * computes it: the streak starts at 1, is kept on the same day, grows by one on the next
    * day and restarts otherwise; the report's XP is added and the level follows it; one more
    * session is counted on today's date; each badge is held exactly when it was or its rule
    * now fires, and nothing else is added; every other field is kept. */
  predicate SessionUpdate(user: User, report: Report, today: int, u: User)
    requires report.xpEarned.Some?
  {
    (user.lastSessionDate.None? ==> u.streak == 1) &&
    (user.lastSessionDate.Some? && IsSameDay(today, user.lastSessionDate.value) ==>
       u.streak == user.streak) &&
    (user.lastSessionDate.Some? && !IsSameDay(today, user.lastSessionDate.value) ==>
       u.streak == if AreConsecutiveDays(user.lastSessionDate.value, today) then user.streak + 1 else 1) &&
    u.xp == user.xp + report.xpEarned.value &&
    u.level == LevelOf(u.xp) &&
    u.completedSessionCount == user.completedSessionCount + 1 &&
    u.lastSessionDate == Some(today) &&
    user.unlockedAchievements <= u.unlockedAchievements &&
    (forall id :: id in AchievementIds ==>
       (id in u.unlockedAchievements <==>
        id in user.unlockedAchievements ||
        RuleFires(id, u.completedSessionCount, u.streak, u.level, report.evaluation.grammarAnalysis == []))) &&
    (forall a :: a in u.unlockedAchievements ==> a in user.unlockedAchievements || a in AchievementIds) &&
    (NoDuplicates(user.unlockedAchievements) ==> NoDuplicates(u.unlockedAchievements)) &&
    u.name == user.name && u.role == user.role && u.track == user.track &&
    u.hasCompletedOnboarding == user.hasCompletedOnboarding
  }

  /** The profile update of `handleSessionComplete` on a user who is logged in, computed step
    * by step as the source does. */
  method UpdatedUser(user: User, report: Report, today: int) returns (u: User)
    requires report.xpEarned.Some?
    ensures SessionUpdate(user, report, today, u)
  {
    var newStreak := user.streak;
    if user.lastSessionDate.Some? {
      if !IsSameDay(today, user.lastSessionDate.value) {
        if AreConsecutiveDays(user.lastSessionDate.value, today) {
          newStreak := newStreak + 1;
        } else {
          newStreak := 1;
        }
      }
    } else {
      newStreak := 1;
    }

    var newXp := user.xp + report.xpEarned.value;
    var newLevel := GetLevelFromXp(newXp);

    var newSessionCount := user.completedSessionCount + 1;
    var unlocked := UnlockAchievements(user.unlockedAchievements, newSessionCount, newStreak, newLevel,
                                       report.evaluation.grammarAnalysis == []);

    u := user.(xp := newXp, level := newLevel, streak := newStreak, lastSessionDate := Some(today),
               completedSessionCount := newSessionCount, unlockedAchievements := unlocked);
  }

  /** `session_1` is always held after a session, and each other badge is held exactly when it
    * was held before or its own threshold is now met. */
  lemma AchievementRules(user: User, u: User, perfectGrammar: bool)
    requires forall id :: id in AchievementIds ==>
               (id in u.unlockedAchievements <==>
                id in user.unlockedAchievements ||
                RuleFires(id, u.completedSessionCount, u.streak, u.level, perfectGrammar))
    ensures Session1 in u.unlockedAchievements
    ensures Session5 in u.unlockedAchievements <==>
              Session5 in user.unlockedAchievements || u.completedSessionCount >= 5
    ensures Session10 in u.unlockedAchievements <==>
              Session10 in user.unlockedAchievements || u.completedSessionCount >= 10
    ensures Streak3 in u.unlockedAchievements <==> Streak3 in user.unlockedAchievements || u.streak >= 3
    ensures Streak7 in u.unlockedAchievements <==> Streak7 in user.unlockedAchievements || u.streak >= 7
    ensures Level5 in u.unlockedAchievements <==> Level5 in user.unlockedAchievements || u.level >= 5
    ensures Level10 in u.unlockedAchievements <==> Level10 in user.unlockedAchievements || u.level >= 10
    ensures GrammarPerfect in u.unlockedAchievements <==> GrammarPerfect in user.unlockedAchievements || perfectGrammar
  {
    var sessions, streak, level := u.completedSessionCount, u.streak, u.level;
    forall k | 0 <= k < |AchievementIds|
      ensures AchievementIds[k] in u.unlockedAchievements <==>
              AchievementIds[k] in user.unlockedAchievements || RuleAt(k, sessions, streak, level, perfectGrammar)
    {
      RuleAtNamesRule(k, sessions, streak, level, perfectGrammar);
    }
    assert AchievementIds[0] == Session1 && AchievementIds[1] == Session5 && AchievementIds[2] == Session10;
    assert AchievementIds[3] == Streak3 && AchievementIds[4] == Streak7;
    assert AchievementIds[5] == Level5 && AchievementIds[6] == Level10 && AchievementIds[7] == GrammarPerfect;
  }

  /** The screens the shell can show. */
  datatype View = Login | Home | Speaking | Writing | Dashboard | TeacherDashboard

  /** The shell's state: stored user and reports, the current view and the welcome modal flag. */
  class Shell {
    var user: Option<User>
    var reports: seq<Report>
    var currentView: View
    var showWelcomeModal: bool
    var isLoading: bool

    constructor (storedUser: Option<User>, storedReports: seq<Report>)
      ensures user == storedUser && reports == storedReports
      ensures currentView == Login && !showWelcomeModal && isLoading
    {
      user := storedUser;
      reports := storedReports;
      currentView := Login;
      showWelcomeModal := false;
      isLoading := true;
    }

    /** The effect that runs whenever `user` changes: no user shows the login page, a teacher
      * the teacher dashboard, anyone else the home page; a general-track learner who has not
      * finished onboarding also gets the welcome modal (the effect never hides it). */
    method SyncView()
      modifies this`currentView, this`showWelcomeModal, this`isLoading
      ensures user.None? ==> currentView == Login
      ensures user.Some? && user.value.role == Teacher ==> currentView == TeacherDashboard
      ensures user.Some? && user.value.role != Teacher ==> currentView == Home
      ensures showWelcomeModal ==
                (old(showWelcomeModal) ||
                 (user.Some? && user.value.role != Teacher &&
                  user.value.track == General && !user.value.hasCompletedOnboarding))
      ensures !isLoading
    {
      if user.Some? {
        if user.value.role == Teacher {
          currentView := TeacherDashboard;
        } else {
          currentView := Home;
          if user.value.track == General && !user.value.hasCompletedOnboarding {
            showWelcomeModal := true;
          }
        }
      } else {
        currentView := Login;
      }
      isLoading := false;
    }

    /** `handleSessionComplete`: without a user nothing changes; otherwise the report is
      * appended and the profile is replaced by its updated form. */
    method HandleSessionComplete(report: Report, today: int)
      requires report.xpEarned.Some?
      modifies this`user, this`reports
      ensures old(user).None? ==> user == old(user) && reports == old(reports)
      ensures old(user).Some? ==> reports == old(reports) + [report] && user.Some?
      ensures old(user).Some? ==> SessionUpdate(old(user).value, report, today, user.value)
    {
      if user.None? {
        return;
      }
      reports := reports + [report];
      var updated := UpdatedUser(user.value, report, today);
      user := Some(updated);
    }
  }
}
