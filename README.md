# Companion Browser: ad-blocking gate, address bar and activity decisions

A Dafny model of the parts of the Companion Browser's `MainActivity` that do more than
wire Android widgets together.

- **Ad-blocking gate** (`ad_blocking.dfy`, module `AdBlockingGate`). The WebView client
  intercepts every resource request. While ad blocking is on, it keeps a table
  `loadedUrls` from URL to verdict. On a miss it asks the classifier `isAd` once and stores
  the answer. On a hit it reuses the stored answer. An ad gets the empty substitute
  resource and anything else passes through. While ad blocking is off, the table is
  neither read nor written. The switch starts from the stored preference `"ad_blocking"`
  and is on when nothing is stored. The menu item flips it and writes it back.
  - `MainActivity` is a class with the switch and the preferences.
  - `AdBlockingWebViewClient` is a class with the verdict table. It reads the activity's
    switch on every request.
  - Both are proved against the functions `Intercept`, `StartSwitch` and `Toggle`.
  - `Replay` plays a whole session of requests and toggles. The lemmas about it show
    three things. The memo never changes an answer compared with asking the classifier
    every time (`Expected`). No stored verdict is ever overwritten. The stored preference
    always matches the live switch.
- **Address bar** (`address_bar.dfy`, module `AddressBar`). The "go" key works on the
  trimmed text, where `Trim` is Java's `String.trim`. Blank input puts the current URL
  back into the bar. A valid URL is loaded as typed. Input with a space or without a dot
  becomes a Google search. Anything else goes to the platform's URL guesser.
- **Activity decisions** (`activity_helpers.dfy`, module `ActivityHelpers`). This module
  holds three pieces:
  - the shortcut icon's text, the first one or two characters of the title;
  - the default-app check, where the last resolved package wins;
  - the back button's order of precedence.

The classifier (`isAd`), the URL validity test (`isValidUrl`) and the URL guesser
(`guessUrl`) are pure functions passed in as parameters, because their rules are not part
of this model. The package manager's answer is a `seq<string>` of package names. The
shared preferences are a `map<string, bool>` field.

The verdict table is keyed on the request URL string exactly as it arrives
(`MainActivity.java:300`). It is never cleared while the client lives. It is a plain
unsynchronised `HashMap` (`MainActivity.java:295`).

## Model

| member | source | states |
|---|---|---|
| AdBlockingGate.StoredAdBlocking | app/src/main/java/de/badener/companion_browser/MainActivity.java:118 | the switch starts as the stored `"ad_blocking"` preference, and as on when none is stored |
| AdBlockingGate.StartSwitch | app/src/main/java/de/badener/companion_browser/MainActivity.java:117-118 | the switch read at start-up keeps the preferences and agrees with them (a restart resumes it) |
| AdBlockingGate.Intercept | app/src/main/java/de/badener/companion_browser/MainActivity.java:298-311 | switched off: pass through, table unchanged, classifier not asked. Switched on: the classifier is asked exactly when the URL is not yet a key, and its answer becomes that key's entry. A known URL leaves the table unchanged. The response is the empty resource exactly when the URL's entry says "ad". No existing entry is ever overwritten or removed |
| AdBlockingGate.InterceptRepeats | app/src/main/java/de/badener/companion_browser/MainActivity.java:302-308 | a second request for the same URL gets the same response, does not ask the classifier and leaves the table unchanged |
| AdBlockingGate.InterceptIsTransparent | app/src/main/java/de/badener/companion_browser/MainActivity.java:298-311 | when every stored verdict is the classifier's, the response equals the unmemoised reference `Verdict`, and the table stays faithful |
| AdBlockingGate.Toggle | app/src/main/java/de/badener/companion_browser/MainActivity.java:379-384 | the menu item negates the switch and stores the new value under `"ad_blocking"`. Every other preference is unchanged |
| AdBlockingGate.ToggleTwice | app/src/main/java/de/badener/companion_browser/MainActivity.java:381-383 | toggling twice restores the original value, which is then stored. After any toggle a restart resumes the live value |
| AdBlockingGate.MainActivity.constructor | app/src/main/java/de/badener/companion_browser/MainActivity.java:117-118 | the activity's switch and preferences are `StartSwitch` of the stored preferences |
| AdBlockingGate.MainActivity.ToggleAdBlocking | app/src/main/java/de/badener/companion_browser/MainActivity.java:379-384 | the fields after the menu item are `Toggle` of the fields before it |
| AdBlockingGate.AdBlockingWebViewClient.constructor | app/src/main/java/de/badener/companion_browser/MainActivity.java:292-295 | a new client starts with an empty verdict table and has asked the classifier nothing |
| AdBlockingGate.AdBlockingWebViewClient.ShouldInterceptRequest | app/src/main/java/de/badener/companion_browser/MainActivity.java:297-311 | the response is the reference verdict under the activity's current switch, and the new table is the one `Intercept` gives. The classifier log grows by the URL exactly when the classifier is asked. The invariant is kept: the table holds only classifier verdicts, and the classifier has been asked exactly about the table's keys, each once |
| AdBlockingGate.ReplayMatchesExpected | app/src/main/java/de/badener/companion_browser/MainActivity.java:298-311 | over any session of requests and toggles, starting from a faithful table, the responses are exactly those of the reference that asks the classifier every time under the switch in force. The table stays faithful without being cleared |
| AdBlockingGate.ReplayKeepsVerdicts | app/src/main/java/de/badener/companion_browser/MainActivity.java:302-306 | over any session, every stored verdict survives unchanged |
| AdBlockingGate.ReplayKeepsSwitchPersisted | app/src/main/java/de/badener/companion_browser/MainActivity.java:381-383 | over any session, the stored preference keeps matching the live switch |
| AdBlockingGate.ReplayWhileDisabled | app/src/main/java/de/badener/companion_browser/MainActivity.java:300-310 | while the switch stays off, every request passes through, including URLs stored as ads, and the state is unchanged |
| AddressBar.Trim | app/src/main/java/de/badener/companion_browser/MainActivity.java:165-168 | the trimmed text is empty exactly when every character is at most U+0020. Otherwise it starts and ends with a character above U+0020 |
| AddressBar.TrimRemovesPadding | app/src/main/java/de/badener/companion_browser/MainActivity.java:168 | trimming blank padding off a trimmed string gives that string back |
| AddressBar.TrimSplits | app/src/main/java/de/badener/companion_browser/MainActivity.java:168 | every string is its trimmed form with blank padding on both sides |
| AddressBar.TrimIgnoresPadding | app/src/main/java/de/badener/companion_browser/MainActivity.java:168 | adding blank padding to any text does not change its trimmed form |
| AddressBar.TrimIdempotent | app/src/main/java/de/badener/companion_browser/MainActivity.java:168 | trimming twice is trimming once |
| AddressBar.ResolveInput | app/src/main/java/de/badener/companion_browser/MainActivity.java:169-179 | a valid URL is loaded as typed. Otherwise, input with a space or without a dot loads the Google search prefix followed by the unencoded input. Only the remaining input, a dotted word, goes to the URL guesser |
| AddressBar.OnEditorAction | app/src/main/java/de/badener/companion_browser/MainActivity.java:164-188 | only the "go" action is handled. Blank input resets the bar to the current URL and loads nothing. Any other input loads the URL resolved from the trimmed text |
| AddressBar.OnEditorActionIgnoresPadding | app/src/main/java/de/badener/companion_browser/MainActivity.java:165-168 | blank padding around the typed text never changes what the "go" key does |
| ActivityHelpers.IconText | app/src/main/java/de/badener/companion_browser/MainActivity.java:461 | for a non-empty title, the icon text is a prefix of the title whose length is the smaller of 2 and the title's length |
| ActivityHelpers.CheckDefaultApps | app/src/main/java/de/badener/companion_browser/MainActivity.java:503-517 | the loop reports a default app exactly when the resolved list is non-empty and its last package is not the browser's own |
| ActivityHelpers.OnBackPressed | app/src/main/java/de/badener/companion_browser/MainActivity.java:565-572 | the back button clears the search focus when the bar has it. Otherwise it goes back when it can. It closes the window only when neither applies |

## Left out

- `AdBlocking.init`, `AdBlocking.isAd` and `AdBlocking.createEmptyResource` are not part of this model. The classifier is an arbitrary pure function, and the empty resource is the token `Empty`.
- Concurrency: the WebView calls the gate from worker threads, and the unsynchronised `HashMap` is shared between them. The model runs one call at a time.
- The WebView itself: page loading, reloading after a toggle, and the pass-through response, which is the token `PassThrough`.
- Intents, the package manager query, and the shared-preferences file I/O. The preferences are a map, and the resolved activities are a list of package names.
- Snackbars, menus, dialogs, focus and visibility changes, the keyboard, the progress bar, fullscreen and downloads: these are Android UI and I/O.
- The `isDefaultAppAvailable` field and the "open default app" button's visibility: the method returns the value the code stores there.
- The bitmap and canvas drawing of the shortcut icon: graphics and floating-point layout.
- `URLUtil.isValidUrl` and `URLUtil.guessUrl` are platform library code. They are parameters.
- IconText: counts characters as Dafny characters, where Java's `substring` counts UTF-16 code units, so a title that starts with a character outside the Basic Multilingual Plane is cut differently.
- IconText: requires a non-empty title. In the code, an empty shortcut title makes `substring(0, 1)` throw `StringIndexOutOfBoundsException` at :461, and a `null` one makes `length()` throw `NullPointerException`. This can happen because :423-424 fall back to the page title, which may be empty or `null`, when the typed name is blank. The model does not describe the exception.
- OnEditorAction: a `null` editor text (which the code rejects with `Objects.requireNonNull`) is not modelled, because the text is always a string here.
