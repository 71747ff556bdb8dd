/**
 Three small decisions of the browser activity: the text drawn on a pinned
 shortcut's icon, whether another app is the default handler of the current
 page, and what the back button does.
 */
module ActivityHelpers {

  /** The text drawn on a shortcut icon: the first two characters of the title,
      or its only character. The title must not be empty (taking the first
      character of an empty title fails). */
  function IconText(title: string): (text: string)
    requires |title| >= 1
    ensures |text| == if |title| >= 2 then 2 else 1
    ensures text <= title
  {
    if |title| >= 2 then title[..2] else title[..1]
  }

  /** The browser's own package name. */
  const OwnPackage: string := "de.badener.companion_browser"

  /** Another app is the default for the current page when the package manager
      resolved at least one activity and the last one resolved is not the
      browser itself. */
  predicate DefaultAppAvailable(resolved: seq<string>)
  {
    |resolved| > 0 && resolved[|resolved| - 1] != OwnPackage
  }

  /** checkDefaultApps: walk the resolved activities, keeping the package name of
      each in turn, then compare what is left with the browser's own name. */
  method CheckDefaultApps(resolved: seq<string>) returns (available: bool)
    ensures available == DefaultAppAvailable(resolved)
  {
    var packageName := OwnPackage;
    for i := 0 to |resolved|
      invariant packageName == if i == 0 then OwnPackage else resolved[i - 1]
    {
      packageName := resolved[i];
    }
    available := packageName != OwnPackage;
  }

  /** The three things the back button can do. */
  datatype BackAction = ClearSearchFocus | GoBack | FinishAndRemoveTask

  /** The back button: leave the address bar first, then go back in the page
      history, and close the window only when there is nothing else to do. */
  function OnBackPressed(searchHasFocus: bool, canGoBack: bool): (a: BackAction)
    ensures a == ClearSearchFocus <==> searchHasFocus
    ensures a == GoBack <==> !searchHasFocus && canGoBack
    ensures a == FinishAndRemoveTask <==> !searchHasFocus && !canGoBack
  {
    if searchHasFocus then ClearSearchFocus
    else if canGoBack then GoBack
    else FinishAndRemoveTask
  }
}
