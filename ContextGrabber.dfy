/** What the client gathers before a dictation stream starts: the user's
    dictionary as vocabulary and replacements, the profile details, the
    tone chosen for the application in front, and (when editing) the
    selected text. */
module ContextGrabber {
  import opened Common
  import opened Protocol
  import opened SortedQuery
  import LocalRepo
  import AppTargetUtils
  import AppTargetRepo
  import UserDetailsRepo
  import SyncService

  type Row = LocalRepo.Row

  const LocalUserId := "local-user"

  /** `getCurrentUserId() || 'local-user'`. */
  function EffectiveUser(currentUserId: string): (u: string)
    ensures u != ""
    ensures currentUserId != "" ==> u == currentUserId
  {
    if currentUserId == "" then LocalUserId else currentUserId
  }

  // ---------------------------------------------------------------------
  // Vocabulary and replacements
  // ---------------------------------------------------------------------

  predicate DictionaryRows(items: seq<Row>) {
    forall i :: 0 <= i < |items| ==> items[i].cols.DictionaryCols?
  }

  predicate IsLive(r: Row) {
    r.deletedAt.None?
  }

  /** The items that are not soft-deleted, in listing order. */
  function Active(items: seq<Row>): (a: seq<Row>)
    requires DictionaryRows(items)
    ensures DictionaryRows(a)
    ensures forall i :: 0 <= i < |a| ==> IsLive(a[i]) && a[i] in items
  {
    Filter(items, IsLive)
  }

  /** A pronunciation that is neither NULL nor empty. */
  predicate HasPronunciation(r: Row)
    requires r.cols.DictionaryCols?
  {
    r.cols.pronunciation.Some? && r.cols.pronunciation.value != ""
  }

  /** The words one item adds to the vocabulary: the word, followed by its
      pronunciation when it has one. */
  function Contribution(r: Row): (ws: seq<string>)
    requires r.cols.DictionaryCols?
    ensures |ws| == if HasPronunciation(r) then 2 else 1
    ensures ws[0] == r.cols.word
    ensures HasPronunciation(r) ==> ws[1] == r.cols.pronunciation.value
  {
    if HasPronunciation(r) then [r.cols.word, r.cols.pronunciation.value] else [r.cols.word]
  }

  function VocabularyOf(active: seq<Row>): seq<string>
    requires DictionaryRows(active)
  {
    if active == [] then []
    else VocabularyOf(active[..|active| - 1]) + Contribution(active[|active| - 1])
  }

  function ReplacementsOf(active: seq<Row>): seq<ReplacementEntry>
    requires DictionaryRows(active)
  {
    if active == [] then []
    else
      var last := active[|active| - 1];
      ReplacementsOf(active[..|active| - 1])
        + (if HasPronunciation(last) then [ReplacementEntry(last.cols.word, last.cols.pronunciation.value)] else [])
  }

  /** `getVocabularyAndReplacements`: `listing` is what the dictionary
      table returned, `None` when reading it failed. */
  method VocabularyAndReplacements(listing: Option<seq<Row>>) returns (vocabulary: seq<string>, replacements: seq<ReplacementEntry>)
    requires listing.Some? ==> DictionaryRows(listing.value)
    ensures listing.None? ==> vocabulary == [] && replacements == []
    ensures listing.Some? ==> vocabulary == VocabularyOf(Active(listing.value))
    ensures listing.Some? ==> replacements == ReplacementsOf(Active(listing.value))
  {
    vocabulary, replacements := [], [];
    if listing.None? {
      return;
    }
    var active := Active(listing.value);
    var i := 0;
    while i < |active|
      invariant 0 <= i <= |active|
      invariant vocabulary == VocabularyOf(active[..i])
      invariant replacements == ReplacementsOf(active[..i])
    {
      var item := active[i];
      assert active[..i + 1][..i] == active[..i];
      if item.cols.pronunciation.Some? && item.cols.pronunciation.value != "" {
        vocabulary := vocabulary + [item.cols.word];
        vocabulary := vocabulary + [item.cols.pronunciation.value];
        replacements := replacements + [ReplacementEntry(item.cols.word, item.cols.pronunciation.value)];
      } else {
        vocabulary := vocabulary + [item.cols.word];
      }
      i := i + 1;
    }
    assert active[..i] == active;
  }

  /** Every item gives one word, and one more for each replacement. */
  lemma {:induction false} VocabularyCount(active: seq<Row>)
    requires DictionaryRows(active)
    ensures |VocabularyOf(active)| == |active| + |ReplacementsOf(active)|
  {
    if active != [] {
      VocabularyCount(active[..|active| - 1]);
    }
  }

  /** Both sides of every replacement are in the vocabulary, and no
      replacement turns a word into nothing. */
  lemma {:induction false} ReplacementsInVocabulary(active: seq<Row>)
    requires DictionaryRows(active)
    ensures forall e :: e in ReplacementsOf(active) ==>
      e.fromText in VocabularyOf(active) && e.toText in VocabularyOf(active) && e.toText != ""
  {
    if active != [] {
      var init := active[..|active| - 1];
      ReplacementsInVocabulary(init);
      var last := active[|active| - 1];
      assert VocabularyOf(active) == VocabularyOf(init) + Contribution(last);
    }
  }

  /** Each vocabulary word is the word or the pronunciation of some item. */
  lemma {:induction false} VocabularyFromItems(active: seq<Row>)
    requires DictionaryRows(active)
    ensures forall w :: w in VocabularyOf(active) ==>
      exists k :: 0 <= k < |active| && (w == active[k].cols.word || active[k].cols.pronunciation == Some(w))
  {
    if active != [] {
      var init := active[..|active| - 1];
      VocabularyFromItems(init);
      var last := active[|active| - 1];
      forall w | w in VocabularyOf(active)
        ensures exists k :: 0 <= k < |active| && (w == active[k].cols.word || active[k].cols.pronunciation == Some(w))
      {
        if w in VocabularyOf(init) {
          var k :| 0 <= k < |init| && (w == init[k].cols.word || init[k].cols.pronunciation == Some(w));
          assert active[k] == init[k];
        } else {
          assert w in Contribution(last);
          assert w == active[|active| - 1].cols.word || active[|active| - 1].cols.pronunciation == Some(w);
        }
      }
    }
  }

  /** A soft-deleted dictionary item contributes nothing: every word sent
      comes from an item that is not deleted. */
  lemma DeletedItemsIgnored(items: seq<Row>)
    requires DictionaryRows(items)
    ensures forall w :: w in VocabularyOf(Active(items)) ==>
      exists r :: r in items && IsLive(r) && (w == r.cols.word || r.cols.pronunciation == Some(w))
  {
    var a := Active(items);
    VocabularyFromItems(a);
    forall w | w in VocabularyOf(a)
      ensures exists r :: r in items && IsLive(r) && (w == r.cols.word || r.cols.pronunciation == Some(w))
    {
      var k :| 0 <= k < |a| && (w == a[k].cols.word || a[k].cols.pronunciation == Some(w));
      assert a[k] in items && IsLive(a[k]);
    }
  }

  // ---------------------------------------------------------------------
  // Tone of the application in front
  // ---------------------------------------------------------------------

  /** `appTarget?.toneId || DEFAULT_TONE_ID`. */
  function ToneIdFor(target: Option<AppTargetRepo.AppTarget>): (id: string)
    ensures id != ""
    ensures target.None? ==> id == AppTargetUtils.DefaultToneId
    ensures target.Some? && target.value.toneId.Some? && target.value.toneId.value != "" ==> id == target.value.toneId.value
  {
    if target.Some? && target.value.toneId.Some? && target.value.toneId.value != "" then target.value.toneId.value
    else AppTargetUtils.DefaultToneId
  }

  predicate HasDomainMatch(targets: AppTargetRepo.Targets, domain: string, userId: string) {
    exists k :: k in targets && AppTargetRepo.DomainMatch(targets[k], domain, userId)
  }

  /** `getToneForCurrentApp(appName, browserDomain)`: an absent app name
      gives no tone; a target registered for the browser's domain wins
      over the one registered for the application; the tone is the
      target's, else the default one. `uuid` stands for the random id
      `normalizeAppTargetId` makes up for a name with no letters;
      `readFails` stands for a table read that throws, which the catch
      turns into no tone. */
  method ToneForCurrentApp(targets: AppTargetRepo.AppTargetTable, tones: AppTargetRepo.ToneTable,
                           currentUserId: string, appName: string, browserDomain: string, uuid: string,
                           readFails: bool)
    returns (target: Option<AppTargetRepo.AppTarget>, tone: Option<AppTargetRepo.Tone>)
    requires targets.Valid()
    ensures appName == "" || readFails ==> target.None? && tone.None?
    ensures appName != "" && !readFails && browserDomain != ""
            && HasDomainMatch(targets.rows, browserDomain, EffectiveUser(currentUserId)) ==>
      target.Some? && target.value.matchType == "domain" && target.value.domain == Some(browserDomain)
      && target.value.userId == EffectiveUser(currentUserId)
    ensures appName != "" && !readFails
            && (browserDomain == "" || !HasDomainMatch(targets.rows, browserDomain, EffectiveUser(currentUserId))) ==>
      target == targets.FindById(AppTargetUtils.NormalizeAppTargetId(appName, uuid), EffectiveUser(currentUserId))
    ensures appName != "" && !readFails ==> tone == tones.FindById(ToneIdFor(target))
  {
    var userId := EffectiveUser(currentUserId);
    if appName == "" || readFails {
      return None, None;
    }
    target := None;
    if browserDomain != "" {
      target := targets.FindByDomain(browserDomain, userId);
      if target.Some? {
        var k :| k in targets.rows && AppTargetRepo.DomainMatch(targets.rows[k], browserDomain, userId)
                 && target.value == AppTargetRepo.ToAppTarget(targets.rows[k]);
      }
    }
    if target.None? {
      var appId := AppTargetUtils.NormalizeAppTargetId(appName, uuid);
      target := targets.FindById(appId, userId);
    }
    tone := tones.FindById(ToneIdFor(target));
  }

  // ---------------------------------------------------------------------
  // Profile details
  // ---------------------------------------------------------------------

  datatype ContextDetails = ContextDetails(
    fullName: string, occupation: string,
    companyName: Option<string>, role: Option<string>, email: Option<string>,
    phoneNumber: Option<string>, businessAddress: Option<string>,
    website: Option<string>, linkedin: Option<string>,
    additionalInfo: seq<UserDetailsRepo.InfoItem>)

  function InfoItems(listing: seq<UserDetailsRepo.InfoRow>): (items: seq<UserDetailsRepo.InfoItem>)
    ensures |items| == |listing|
    ensures forall i :: 0 <= i < |listing| ==> items[i] == UserDetailsRepo.InfoItem(listing[i].key, listing[i].value)
  {
    if listing == [] then []
    else [UserDetailsRepo.InfoItem(listing[0].key, listing[0].value)] + InfoItems(listing[1..])
  }

  function ToContextDetails(d: UserDetailsRepo.Details, listing: seq<UserDetailsRepo.InfoRow>): ContextDetails {
    ContextDetails(d.fullName, d.occupation, d.companyName, d.role, d.email, d.phoneNumber,
                   d.businessAddress, d.website, d.linkedin, InfoItems(listing))
  }

  /** A profile counts only when it has a name or an occupation. */
  predicate HasProfile(tables: UserDetailsRepo.ProfileTables, userId: string)
    reads tables
    requires tables.Valid()
  {
    var d := tables.FindByUserId(userId);
    d.Some? && (d.value.fullName != "" || d.value.occupation != "")
  }

  /** `getUserDetails`: nothing without a profile that names the user or
      their occupation; otherwise the profile with its additional lines in
      `sort_order`. `readFails` stands for a table read that throws, which
      the catch turns into no details. */
  method UserDetails(tables: UserDetailsRepo.ProfileTables, currentUserId: string, readFails: bool)
    returns (r: Option<ContextDetails>)
    requires tables.Valid()
    ensures r.None? <==> readFails || !HasProfile(tables, EffectiveUser(currentUserId))
    ensures r.Some? ==> exists listing ::
      && SortedBy(listing, UserDetailsRepo.SortOrder) && Distinct(listing)
      && (forall row :: row in listing <==> row in tables.InfoOf(EffectiveUser(currentUserId)))
      && r.value == ToContextDetails(tables.FindByUserId(EffectiveUser(currentUserId)).value, listing)
  {
    if readFails {
      return None;
    }
    var userId := EffectiveUser(currentUserId);
    var details := tables.FindByUserId(userId);
    if details.None? || (details.value.fullName == "" && details.value.occupation == "") {
      return None;
    }
    var listing := tables.FindAllByUserId(userId);
    r := Some(ToContextDetails(details.value, listing));
  }

  // ---------------------------------------------------------------------
  // Selected text
  // ---------------------------------------------------------------------

  /** `getContextText(mode)`. Outside EDIT mode nothing is read. The
      accessibility reader is tried first when it is usable (`axUsable`:
      macOS, enabled in the settings and running); `axText` is the text it
      selected, `None` when it failed or found none. The keyboard fallback
      yields `keyboardText`, `None` when it failed. */
  function ContextText(mode: ItoMode, axUsable: bool, axText: Option<string>, keyboardText: Option<string>): (r: string)
    ensures mode != Edit ==> r == ""
    ensures mode == Edit && axUsable && axText.Some? && axText.value != "" ==> r == Trim(axText.value)
    ensures mode == Edit && !(axUsable && axText.Some? && axText.value != "") ==>
      r == (if keyboardText.Some? && !IsBlank(keyboardText.value) then keyboardText.value else "")
  {
    if mode != Edit then ""
    else if axUsable && axText.Some? && axText.value != "" then Trim(axText.value)
    else if keyboardText.Some? && |Trim(keyboardText.value)| > 0 then keyboardText.value
    else ""
  }

  // ---------------------------------------------------------------------
  // All of it
  // ---------------------------------------------------------------------

  datatype WindowInfo = WindowInfo(title: string, appName: string)

  datatype ContextData = ContextData(
    vocabularyWords: seq<string>,
    replacements: seq<ReplacementEntry>,
    userDetails: Option<ContextDetails>,
    windowTitle: string,
    appName: string,
    contextText: string,
    browserUrl: Option<string>,
    browserDomain: Option<string>,
    advancedSettings: SyncService.AdvancedSettings,
    tone: Option<AppTargetRepo.Tone>)

  /** `gatherContext(mode)`: the window (absent when it could not be read),
      the browser URL and domain, the selected-text readings and the
      stored advanced settings are inputs; `profileReadFails` and
      `toneReadFails` stand for a throwing table read in `getUserDetails`
      and `getToneForCurrentApp`. Missing window fields become empty
      strings. */
  method GatherContext(mode: ItoMode, currentUserId: string, dictionary: Option<seq<Row>>,
                       profiles: UserDetailsRepo.ProfileTables,
                       targets: AppTargetRepo.AppTargetTable, tones: AppTargetRepo.ToneTable,
                       window: Option<WindowInfo>, browserUrl: Option<string>, browserDomain: Option<string>,
                       axUsable: bool, axText: Option<string>, keyboardText: Option<string>, uuid: string,
                       advancedSettings: SyncService.AdvancedSettings, profileReadFails: bool, toneReadFails: bool)
    returns (c: ContextData)
    requires dictionary.Some? ==> DictionaryRows(dictionary.value)
    requires profiles.Valid() && targets.Valid()
    ensures dictionary.Some? ==> c.vocabularyWords == VocabularyOf(Active(dictionary.value))
    ensures dictionary.Some? ==> c.replacements == ReplacementsOf(Active(dictionary.value))
    ensures dictionary.None? ==> c.vocabularyWords == [] && c.replacements == []
    ensures c.userDetails.None? <==> profileReadFails || !HasProfile(profiles, EffectiveUser(currentUserId))
    ensures c.userDetails.Some? ==> exists listing ::
      && SortedBy(listing, UserDetailsRepo.SortOrder) && Distinct(listing)
      && (forall row :: row in listing <==> row in profiles.InfoOf(EffectiveUser(currentUserId)))
      && c.userDetails.value == ToContextDetails(profiles.FindByUserId(EffectiveUser(currentUserId)).value, listing)
    ensures c.appName != "" && !toneReadFails ==> exists target: Option<AppTargetRepo.AppTarget> ::
      && c.tone == tones.FindById(ToneIdFor(target))
      && (c.browserDomain.Some? && c.browserDomain.value != ""
          && HasDomainMatch(targets.rows, c.browserDomain.value, EffectiveUser(currentUserId)) ==>
            target.Some? && target.value.matchType == "domain" && target.value.domain == c.browserDomain
            && target.value.userId == EffectiveUser(currentUserId))
      && (!(c.browserDomain.Some? && c.browserDomain.value != ""
            && HasDomainMatch(targets.rows, c.browserDomain.value, EffectiveUser(currentUserId))) ==>
            target == targets.FindById(AppTargetUtils.NormalizeAppTargetId(c.appName, uuid), EffectiveUser(currentUserId)))
    ensures c.windowTitle == (if window.Some? then window.value.title else "")
    ensures c.appName == (if window.Some? then window.value.appName else "")
    ensures c.contextText == ContextText(mode, axUsable, axText, keyboardText)
    ensures c.browserUrl == browserUrl && c.browserDomain == browserDomain
    ensures c.appName == "" || toneReadFails ==> c.tone.None?
    ensures c.advancedSettings == advancedSettings
  {
    var vocabulary, replacements := VocabularyAndReplacements(dictionary);
    var details := UserDetails(profiles, currentUserId, profileReadFails);
    var contextText := ContextText(mode, axUsable, axText, keyboardText);
    var appName := if window.Some? then window.value.appName else "";
    var domain := if browserDomain.Some? then browserDomain.value else "";
    var target, tone := ToneForCurrentApp(targets, tones, currentUserId, appName, domain, uuid, toneReadFails);
    c := ContextData(vocabulary, replacements, details,
                     if window.Some? then window.value.title else "", appName,
                     contextText, browserUrl, browserDomain, advancedSettings, tone);
  }
}
