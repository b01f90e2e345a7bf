/** The theme-selection screen: the fixed table of conversation themes and the lookup that
    turns a chosen theme id into the navigation to the chat page. */
module ThemeSelection {
  import opened Common

  datatype Theme = Theme(id: string, name: string, description: string)

  /** The route state handed to the chat page. */
  datatype ChatRouteState = ChatRouteState(theme: string, themeName: string, themeDescription: string)

  /** A call of `navigate(path, { state, replace })`. */
  datatype Navigation = Navigation(path: string, state: ChatRouteState, replace: bool)

  const ChatPath: string := "/chat"

  /** The id the dedicated "free" button selects. */
  const FreeThemeId: string := "00000000-0000-0000-0000-000000000001"

  /** The table of themes, in display order. */
  function Themes(): seq<Theme> {
    [
      Theme("00000000-0000-0000-0000-000000000001", "フリー",
            "特定のテーマにとらわれず、自由に話し合いたい内容について対話します。"),
      Theme("00000000-0000-0000-0000-000000000002", "将来への不安",
            "将来の不安や悩みについて一緒に考え、解決策を見つけます。"),
      Theme("00000000-0000-0000-0000-000000000003", "お金に関して",
            "家計、投資、貯金など、お金に関する相談に応じます。"),
      Theme("00000000-0000-0000-0000-000000000004", "仕事・就職",
            "仕事や就職に関する悩みについてアドバイスします。"),
      Theme("00000000-0000-0000-0000-000000000005", "人間関係",
            "友人、家族、職場など、人間関係の悩みを解決します。"),
      Theme("00000000-0000-0000-0000-000000000006", "学校成績・進学",
            "学業や進学に関する相談に応じます。"),
      Theme("00000000-0000-0000-0000-000000000007", "容姿・健康",
            "健康管理や外見に関する相談に応じます。"),
      Theme("00000000-0000-0000-0000-000000000008", "政治・社会問題",
            "現代社会の課題について一緒に考えます。")
    ]
  }

  /** The ids are eight distinct texts. */
  lemma ThemeIdsDistinct()
    ensures |Themes()| == 8
    ensures forall i, j :: 0 <= i < j < |Themes()| ==> Themes()[i].id != Themes()[j].id
  {
    assert forall i :: 0 <= i < 8 ==> |Themes()[i].id| == 36 && Themes()[i].id[35] == "12345678"[i];
  }

  /** `Array.prototype.find` by id: the first theme with that id. */
  function Find(ts: seq<Theme>, id: string): (r: Option<Theme>)
    ensures r.None? <==> forall i :: 0 <= i < |ts| ==> ts[i].id != id
    ensures r.Some? ==> exists i :: 0 <= i < |ts| && ts[i] == r.value && r.value.id == id
                                   && forall j :: 0 <= j < i ==> ts[j].id != id
  {
    if ts == [] then None
    else if ts[0].id == id then Some(ts[0])
    else
      var r := Find(ts[1..], id);
      assert forall i :: 0 < i < |ts| ==> ts[i] == ts[1..][i - 1];
      r
  }

  /** When ids are distinct, looking up the id of entry `i` finds entry `i`. */
  lemma FindDistinct(ts: seq<Theme>, i: int)
    requires 0 <= i < |ts|
    requires forall a, b :: 0 <= a < b < |ts| ==> ts[a].id != ts[b].id
    ensures Find(ts, ts[i].id) == Some(ts[i])
  {
    var r := Find(ts, ts[i].id);
    var k :| 0 <= k < |ts| && ts[k] == r.value && r.value.id == ts[i].id
             && forall j :: 0 <= j < k ==> ts[j].id != ts[i].id;
    if k < i {
      assert ts[k].id != ts[i].id;
    }
  }

  /** `handleThemeSelect`: a known id navigates to the chat page in place of the current
      entry, carrying the id and the theme's name and description; an unknown id does
      nothing. */
  function HandleThemeSelect(themeId: string): (nav: Option<Navigation>)
    ensures nav.None? <==> forall i :: 0 <= i < |Themes()| ==> Themes()[i].id != themeId
    ensures nav.Some? ==> nav.value.path == ChatPath && nav.value.replace
                          && nav.value.state.theme == themeId
    ensures nav.Some? ==> exists i :: 0 <= i < |Themes()| && Themes()[i].id == themeId
                                     && nav.value.state.themeName == Themes()[i].name
                                     && nav.value.state.themeDescription == Themes()[i].description
  {
    match Find(Themes(), themeId)
    case None => None
    case Some(t) =>
      Some(Navigation(ChatPath, ChatRouteState(themeId, t.name, t.description), true))
  }

  /** Choosing the theme in entry `i` carries exactly that entry's name and description. */
  lemma SelectingEntryNavigatesToIt(i: int)
    requires 0 <= i < |Themes()|
    ensures HandleThemeSelect(Themes()[i].id)
            == Some(Navigation(ChatPath, ChatRouteState(Themes()[i].id, Themes()[i].name,
                                                           Themes()[i].description), true))
  {
    ThemeIdsDistinct();
    FindDistinct(Themes(), i);
  }

  /** The "free" button opens the chat on the table's first theme, named "フリー". */
  lemma FreeButtonSelectsFreeTheme()
    ensures HandleThemeSelect(FreeThemeId).Some?
    ensures HandleThemeSelect(FreeThemeId).value.state.themeName == "フリー"
  {
    SelectingEntryNavigatesToIt(0);
  }
}
