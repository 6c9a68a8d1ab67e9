/**
 * hooks/useTranslation.ts: the order in which the display language is chosen,
 * the module-level listener set every mounted component subscribes to, and
 * `changeLanguage`, which persists the choice and notifies every listener.
 * Component identities are naturals; storage, the auth user, the profile row
 * and the system locale are parameters or fields.
 */
module UseTranslation {
  import opened Common

  /** The two values of the `'en' | 'ja'` union. */
  predicate IsLocale(s: string) {
    s == "en" || s == "ja"
  }

  /** Where `loadLanguage` took the language from. */
  datatype Resolution = FromStorage(lang: string) | FromProfile(lang: string) | FromSystem(lang: string)

  /**
   * The resolution order of `loadLanguage`: a stored 'en' or 'ja' first; then,
   * for a signed-in user, a non-empty profile language (cast unchecked); then
   * 'ja' when the primary system language is 'ja', and 'en' otherwise.
   */
  function Resolve(stored: Option<string>, user: Option<string>, profileLang: Option<string>,
                   systemLang: Option<string>): (r: Resolution)
    ensures stored.Some? && IsLocale(stored.value) ==> r == FromStorage(stored.value)
    ensures r.FromStorage? ==> stored == Some(r.lang) && IsLocale(r.lang)
    ensures r.FromProfile? ==>
      !(stored.Some? && IsLocale(stored.value)) && user.Some? && profileLang == Some(r.lang) && r.lang != ""
    ensures r.FromSystem? ==>
      !(stored.Some? && IsLocale(stored.value)) && (user.None? || !Present(profileLang))
    ensures r.FromSystem? ==> (r.lang == "ja" <==> systemLang == Some("ja")) && IsLocale(r.lang)
  {
    if stored.Some? && IsLocale(stored.value) then FromStorage(stored.value)
    else if user.Some? && Present(profileLang) then FromProfile(profileLang.value)
    else FromSystem(if systemLang == Some("ja") then "ja" else "en")
  }

  /** A stored preference decides alone: nothing else is consulted. */
  lemma StoredWins(lang: string, u1: Option<string>, p1: Option<string>, s1: Option<string>,
                   u2: Option<string>, p2: Option<string>, s2: Option<string>)
    requires IsLocale(lang)
    ensures Resolve(Some(lang), u1, p1, s1) == Resolve(Some(lang), u2, p2, s2) == FromStorage(lang)
  {
  }

  /** A stored value other than 'en' or 'ja' is ignored, as if nothing were stored. */
  lemma InvalidStoredIgnored(value: string, user: Option<string>, profileLang: Option<string>,
                             systemLang: Option<string>)
    requires !IsLocale(value)
    ensures Resolve(Some(value), user, profileLang, systemLang) == Resolve(None, user, profileLang, systemLang)
  {
  }

  /**
   * A profile language 'en' or 'ja' that was persisted is found in storage by
   * the next load, which then resolves to the same language whatever else changed.
   */
  lemma PersistedProfileIsStable(stored: Option<string>, user: Option<string>, profileLang: Option<string>,
                                 systemLang: Option<string>, u: Option<string>, p: Option<string>, s: Option<string>)
    requires Resolve(stored, user, profileLang, systemLang).FromProfile?
    requires IsLocale(Resolve(stored, user, profileLang, systemLang).lang)
    ensures var lang := Resolve(stored, user, profileLang, systemLang).lang;
      Resolve(Some(lang), u, p, s) == FromStorage(lang)
  {
  }

  /** With nothing stored and no signed-in user, the system language alone decides. */
  lemma SignedOutUsesSystem(stored: Option<string>, profileLang: Option<string>, systemLang: Option<string>)
    requires stored.None?
    ensures Resolve(stored, None, profileLang, systemLang) ==
      FromSystem(if systemLang == Some("ja") then "ja" else "en")
  {
  }

  /**
   * The locales after `changeLanguage(lang)`: the caller and every registered
   * listener show `lang`; every other component keeps its locale.
   */
  function Notified(locales: map<nat, string>, listeners: set<nat>, caller: nat, lang: string): (r: map<nat, string>)
    ensures r.Keys == locales.Keys + listeners + {caller}
    ensures forall c :: c in r ==>
      r[c] == (if c in listeners || c == caller then lang else locales[c])
  {
    map c | c in locales.Keys + listeners + {caller} ::
      if c in listeners || c == caller then lang else locales[c]
  }

  /** Notifying at the same language twice changes nothing the second time. */
  lemma NotifiedIdempotent(locales: map<nat, string>, listeners: set<nat>, caller: nat, lang: string)
    ensures Notified(Notified(locales, listeners, caller, lang), listeners, caller, lang) ==
      Notified(locales, listeners, caller, lang)
  {
    var once := Notified(locales, listeners, caller, lang);
    var twice := Notified(once, listeners, caller, lang);
    assert twice.Keys == once.Keys;
    assert forall c :: c in twice ==> twice[c] == once[c];
    assert twice == once;
  }

  /**
   * The module-level `listeners` set, each mounted component's `locale` state
   * and the stored preference under `user_language_preference`.
   */
  class LanguageHub {
    var listeners: set<nat>
    var locales: map<nat, string>
    var stored: Option<string>

    constructor(persisted: Option<string>)
      ensures listeners == {} && locales == map[] && stored == persisted
    {
      listeners := {};
      locales := map[];
      stored := persisted;
    }

    /** The mount effect: the component starts at 'en' and subscribes its listener. */
    method Mount(component: nat)
      modifies this
      ensures listeners == old(listeners) + {component}
      ensures locales == old(locales)[component := "en"]
      ensures stored == old(stored)
    {
      listeners := listeners + {component};
      locales := locales[component := "en"];
    }

    /** The cleanup of the mount effect: exactly this component's listener is removed. */
    method Unmount(component: nat)
      modifies this
      ensures listeners == old(listeners) - {component}
      ensures locales == old(locales) && stored == old(stored)
    {
      listeners := listeners - {component};
    }

    /**
     * `loadLanguage` for one component, with the auth user, the profile's
     * language and the system language as parameters. A profile language is
     * persisted; `writeOk` is whether that storage write succeeds (a failure is
     * caught after the locale was already set).
     */
    method LoadLanguage(component: nat, user: Option<string>, profileLang: Option<string>,
                        systemLang: Option<string>, writeOk: bool) returns (r: Resolution)
      modifies this
      ensures r == Resolve(old(stored), user, profileLang, systemLang)
      ensures locales == old(locales)[component := r.lang]
      ensures stored == (if r.FromProfile? && writeOk then Some(r.lang) else old(stored))
      ensures listeners == old(listeners)
    {
      r := Resolve(stored, user, profileLang, systemLang);
      locales := locales[component := r.lang];
      if r.FromProfile? && writeOk {
        stored := Some(r.lang);
      }
    }

    /**
     * `changeLanguage(lang)` called by `caller`: set its own locale, persist,
     * then call every listener with `lang`. When the storage write fails the
     * exception skips the notification.
     */
    method ChangeLanguage(caller: nat, lang: string, writeOk: bool)
      requires IsLocale(lang)
      modifies this
      ensures listeners == old(listeners)
      ensures writeOk ==> stored == Some(lang) && locales == Notified(old(locales), old(listeners), caller, lang)
      ensures !writeOk ==> stored == old(stored) && locales == old(locales)[caller := lang]
    {
      locales := locales[caller := lang];
      if !writeOk {
        return;
      }
      stored := Some(lang);
      locales := NotifyAll(locales, listeners, caller, lang);
      NotifiedOverCaller(old(locales), listeners, caller, lang);
    }
  }

  /**
   * The loop of `changeLanguage` over the listener set, on the locales with the
   * caller's already set: each listener in turn sets its locale to `lang`.
   */
  method NotifyAll(locales: map<nat, string>, listeners: set<nat>, caller: nat, lang: string)
    returns (updated: map<nat, string>)
    requires caller in locales && locales[caller] == lang
    ensures updated == Notified(locales, listeners, caller, lang)
  {
    NotifiedNone(locales, caller, lang);
    updated := locales;
    var pending := listeners;
    ghost var done: set<nat> := {};
    while pending != {}
      invariant pending <= listeners && done == listeners - pending
      invariant updated == Notified(locales, done, caller, lang)
      decreases |pending|
    {
      var c :| c in pending;
      NotifiedStep(locales, done, caller, lang, c);
      updated := updated[c := lang];
      pending := pending - {c};
      done := done + {c};
    }
    assert done == listeners;
  }

  /** Notifying nobody leaves a map whose caller entry is already `lang` as it is. */
  lemma NotifiedNone(locales: map<nat, string>, caller: nat, lang: string)
    requires caller in locales && locales[caller] == lang
    ensures Notified(locales, {}, caller, lang) == locales
  {
    assert Notified(locales, {}, caller, lang).Keys == locales.Keys;
  }

  /** Notifying one more listener updates exactly that listener's entry. */
  lemma NotifiedStep(locales: map<nat, string>, done: set<nat>, caller: nat, lang: string, c: nat)
    ensures Notified(locales, done + {c}, caller, lang) == Notified(locales, done, caller, lang)[c := lang]
  {
    var l := Notified(locales, done + {c}, caller, lang);
    var r := Notified(locales, done, caller, lang)[c := lang];
    assert l.Keys == r.Keys;
    assert forall k :: k in l ==> l[k] == r[k];
  }

  /** Setting the caller's own entry first does not change the outcome of a notification. */
  lemma NotifiedOverCaller(locales: map<nat, string>, listeners: set<nat>, caller: nat, lang: string)
    ensures Notified(locales[caller := lang], listeners, caller, lang) == Notified(locales, listeners, caller, lang)
  {
    var l := Notified(locales[caller := lang], listeners, caller, lang);
    var r := Notified(locales, listeners, caller, lang);
    assert l.Keys == r.Keys;
    assert forall k :: k in l ==> l[k] == r[k];
  }

  /** After a successful change every subscribed component shows the new language. */
  lemma ChangeReachesEveryListener(locales: map<nat, string>, listeners: set<nat>, caller: nat, lang: string, c: nat)
    requires c in listeners
    ensures c in Notified(locales, listeners, caller, lang) && Notified(locales, listeners, caller, lang)[c] == lang
  {
  }

  /** An unmounted component is not notified: its locale is left as it was. */
  lemma UnmountedNotNotified(locales: map<nat, string>, listeners: set<nat>, caller: nat, lang: string, c: nat)
    requires c in locales && c != caller
    ensures Notified(locales, listeners - {c}, caller, lang)[c] == locales[c]
  {
  }
}
