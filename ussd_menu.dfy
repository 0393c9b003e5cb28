/**
 * The USSD menu tree of the LMS gateway (`USSDHandler`) and the pure text
 * helpers of `USSDService`: the resource list formatter and the AI summary
 * truncation.
 */
module UssdMenu {
  import opened Wrappers
  import opened Text

  /** One screen of the menu tree: its text and the handler each key selects. */
  datatype Menu = Menu(text: string, options: map<string, string>)

  // The screen texts, written line by line.
  const MainMenuText := "Welcome to LMS USSD\n\n" + "1. Browse Resources\n" + "2. Help\n" + "3. Exit"
  const SubjectMenuText := "Select Subject:\n\n" + "1. Mathematics\n" + "2. Science\n" + "3. English\n"
    + "4. History\n" + "5. Geography\n" + "6. Back"
  const GradeMenuText := "Select Grade:\n\n" + "1. K-5 (Elementary)\n" + "2. 6-8 (Middle)\n" + "3. 9-12 (High)\n"
    + "4. College\n" + "5. Back"
  const HelpText := "LMS USSD Help:\n\n" + "\U{2022} Browse educational resources\n" + "\U{2022} Request SMS links\n"
    + "\U{2022} Get AI summaries\n\n" + "Dial *384*1234# to start"

  /** The resource list screen is a format string with one `{resources}` field. */
  const ResourceListHead := "Resources found:\n\n"
  const ResourceListTail := "\n\n" + "1. Request SMS Link\n" + "2. Get AI Summary\n" + "3. Browse More\n" + "4. Back to Main"
  const ResourceListTemplate := ResourceListHead + "{resources}" + ResourceListTail

  const MenuStructure: map<string, Menu> := map[
    "main" := Menu(MainMenuText, map["1" := "browse_subjects", "2" := "help", "3" := "exit"]),
    "browse_subjects" := Menu(SubjectMenuText, map["1" := "Mathematics", "2" := "Science", "3" := "English",
                                                   "4" := "History", "5" := "Geography", "6" := "main"]),
    "browse_grades" := Menu(GradeMenuText, map["1" := "K-5", "2" := "6-8", "3" := "9-12",
                                               "4" := "college", "5" := "browse_subjects"]),
    "resource_list" := Menu(ResourceListTemplate, map["1" := "request_sms", "2" := "get_ai_summary",
                                                      "3" := "browse_subjects", "4" := "main"]),
    "help" := Menu(HelpText, map["*" := "main"])
  ]

  /** `menu_structure.get(name, menu_structure["main"])`: always one of the five menus. */
  function MenuFor(name: string): (m: Menu)
    ensures m in MenuStructure.Values
    ensures name !in MenuStructure ==> m == MenuStructure["main"]
  {
    if name in MenuStructure then MenuStructure[name] else MenuStructure["main"]
  }

  /** `text.format(resources=...)` on the resource list template. */
  function FillResourceList(resources: string): string {
    ResourceListHead + resources + ResourceListTail
  }

  /**
   * `get_menu`: the text of the named menu, the main menu for an unknown
   * name, with `{resources}` filled in only for the resource list and only
   * when a value is passed.
   */
  function GetMenu(name: string, resources: Option<string> := None): (text: string)
    ensures name !in MenuStructure ==> text == MainMenuText
    ensures name == "main" ==> text == MainMenuText
    ensures name == "browse_subjects" ==> text == SubjectMenuText
    ensures name == "browse_grades" ==> text == GradeMenuText
    ensures name == "help" ==> text == HelpText
    ensures name == "resource_list" ==>
      text == if resources.Some? then ResourceListHead + resources.value + ResourceListTail else ResourceListTemplate
  {
    var menu := MenuFor(name);
    if name == "resource_list" && resources.Some? then FillResourceList(resources.value) else menu.text
  }

  /**
   * `get_option_handler`: the handler a key selects in the named menu; an
   * unknown menu behaves as the main menu and an unknown key selects "main".
   */
  function GetOptionHandler(name: string, selection: string): (handler: string)
    ensures selection !in MenuFor(name).options ==> handler == "main"
    ensures name == "main" ==>
      handler == (if selection == "1" then "browse_subjects"
                  else if selection == "2" then "help"
                  else if selection == "3" then "exit"
                  else "main")
  {
    var menu := MenuFor(name);
    if selection in menu.options then menu.options[selection] else "main"
  }

  /** An unknown menu name behaves as "main", for both the text and the keys. */
  lemma UnknownMenuIsMain(name: string, resources: Option<string>, selection: string)
    requires name !in MenuStructure
    ensures GetMenu(name, resources) == GetMenu("main", resources)
    ensures GetOptionHandler(name, selection) == GetOptionHandler("main", selection)
  {
  }

  /** The resource list template is the filled-in screen with the field name itself as the value. */
  lemma TemplateIsUnfilled()
    ensures ResourceListTemplate == FillResourceList("{resources}")
    ensures GetMenu("resource_list") == ResourceListTemplate
  {
  }

  // ---------------------------------------------------------------------
  // Resources as the list screen shows them

  /** A resource record as the list, SMS and summary screens read it. */
  datatype Resource = Resource(title: string, fileUrl: string, subject: string, grade: string)

  const MaxListed := 5
  const MaxTitle := 40

  /** A title longer than 40 characters is cut to 40 and marked with an ellipsis. */
  function TruncateTitle(title: string): (r: string)
    ensures |r| <= MaxTitle + 3
    ensures |title| <= MaxTitle ==> r == title
    ensures |title| > MaxTitle ==> |r| == MaxTitle + 3 && r[..MaxTitle] == title[..MaxTitle] && r[MaxTitle..] == "..."
  {
    if |title| > MaxTitle then title[..MaxTitle] + "..." else title
  }

  /** Line `i` (numbered from 1) of the list. */
  function ListingLine(i: nat, title: string): string {
    NatToString(i) + ". " + TruncateTitle(title) + "\n"
  }

  /** The lines for the first five resources, numbered from 1. */
  function ListingLines(rs: seq<Resource>): (lines: seq<string>)
    ensures |lines| == if |rs| < MaxListed then |rs| else MaxListed
  {
    var k := if |rs| < MaxListed then |rs| else MaxListed;
    seq(k, i requires 0 <= i < k => ListingLine(i + 1, rs[i].title))
  }

  /** The note on how many resources the list leaves out. */
  function MoreNote(count: nat): string {
    if count > MaxListed then "... and " + NatToString(count - MaxListed) + " more resources" else ""
  }

  function Concat(lines: seq<string>): string {
    if lines == [] then "" else Concat(lines[..|lines| - 1]) + lines[|lines| - 1]
  }

  const NoResourcesText := "No resources found."

  /**
   * What `_format_resources_for_ussd` returns; the "no resources" text is shown
   * exactly for an empty list.
   */
  function ResourcesText(rs: seq<Resource>): (text: string)
    ensures text == NoResourcesText <==> rs == []
  {
    if rs == [] then NoResourcesText
    else
      var lines := ListingLines(rs);
      assert lines[0] == ListingLine(1, rs[0].title);
      ConcatStartsWith(lines);
      var text := Concat(lines) + MoreNote(|rs|);
      assert text[0] == '1' != NoResourcesText[0];
      text
  }

  /**
   * `_format_resources_for_ussd`: accumulates one numbered line per resource
   * for the first five, then the note on the rest.
   */
  method FormatResourcesForUssd(rs: seq<Resource>) returns (formatted: string)
    ensures formatted == ResourcesText(rs)
  {
    if rs == [] {
      return NoResourcesText;
    }
    var shown := if |rs| < MaxListed then |rs| else MaxListed;
    ghost var lines := ListingLines(rs);
    formatted := "";
    for i := 0 to shown
      invariant formatted == Concat(lines[..i])
    {
      assert lines[..i + 1][..i] == lines[..i];
      formatted := formatted + ListingLine(i + 1, rs[i].title);
    }
    assert lines[..shown] == lines;
    if |rs| > MaxListed {
      formatted := formatted + MoreNote(|rs|);
    }
  }

  /** A non-empty listing starts with the first line. */
  lemma {:induction false} ConcatStartsWith(lines: seq<string>)
    requires |lines| >= 1 && |lines[0]| >= 1
    ensures |Concat(lines)| >= 1 && Concat(lines)[0] == lines[0][0]
  {
    if |lines| > 1 {
      ConcatStartsWith(lines[..|lines| - 1]);
    }
  }

  lemma {:induction false} ConcatLength(lines: seq<string>, bound: nat)
    requires forall i | 0 <= i < |lines| :: |lines[i]| <= bound
    ensures |Concat(lines)| <= |lines| * bound
  {
    if lines != [] {
      var n := |lines| - 1;
      ConcatLength(lines[..n], bound);
      assert |Concat(lines)| == |Concat(lines[..n])| + |lines[n]|;
      assert n * bound + bound == |lines| * bound;
    }
  }

  /**
   * The list never grows with the titles: at most five lines of at most 47
   * characters, then the note on the rest.
   */
  lemma ResourcesTextLength(rs: seq<Resource>)
    ensures |ResourcesText(rs)| <= MaxListed * (MaxTitle + 7) + |MoreNote(|rs|)|
  {
    if rs != [] {
      var lines := ListingLines(rs);
      forall i | 0 <= i < |lines| ensures |lines[i]| <= MaxTitle + 7 {
        assert |NatToString(i + 1)| == 1;
      }
      ConcatLength(lines, MaxTitle + 7);
    }
  }

  /** Line `i` of a non-empty list is resource `i` numbered `i + 1`, for the first five. */
  lemma ListingNumbersFromOne(rs: seq<Resource>, i: nat)
    requires i < |rs| && i < MaxListed
    ensures ListingLines(rs)[i] == NatToString(i + 1) + ". " + TruncateTitle(rs[i].title) + "\n"
  {
  }

  // ---------------------------------------------------------------------
  // AI summary

  const MaxSummary := 200

  const SummaryOpening := "This "
  const SummaryMiddle := " resource for "
  const SummaryClosing := " students covers fundamental concepts and provides practical examples."
    + " It's designed to help students understand core principles and apply them in real-world scenarios."

  /** The placeholder summary `_get_ai_summary` builds for a resource. */
  function MockSummary(r: Resource): string {
    SummaryOpening + r.subject + SummaryMiddle + r.grade + SummaryClosing
  }

  /**
   * `_get_ai_summary`: the placeholder, cut to 200 characters plus an ellipsis,
   * so it never exceeds 203 characters and always begins as the placeholder does.
   */
  function AiSummary(r: Resource): (s: string)
    ensures |s| <= MaxSummary + 3
    ensures var k := if |s| < MaxSummary then |s| else MaxSummary; k <= |MockSummary(r)| && s[..k] == MockSummary(r)[..k]
  {
    var m := MockSummary(r);
    if |m| > MaxSummary then m[..MaxSummary] + "..." else m
  }

  /**
   * A summary of at most 200 characters is shown whole; a longer one keeps
   * its first 200 characters and gets an ellipsis.
   */
  lemma AiSummaryTruncation(r: Resource)
    ensures |MockSummary(r)| <= MaxSummary ==> AiSummary(r) == MockSummary(r)
    ensures |MockSummary(r)| > MaxSummary ==>
      |AiSummary(r)| == MaxSummary + 3 && AiSummary(r)[..MaxSummary] == MockSummary(r)[..MaxSummary]
      && AiSummary(r)[MaxSummary..] == "..."
  {
  }

  /** The placeholder has 187 fixed characters, so only long subject and grade names get cut. */
  lemma AiSummaryCut(r: Resource)
    ensures |MockSummary(r)| == 187 + |r.subject| + |r.grade|
    ensures |AiSummary(r)| == if |r.subject| + |r.grade| <= 13 then 187 + |r.subject| + |r.grade| else 203
  {
  }
}
