/**
 * The USSD session state machine of `USSDService`. The step functions are
 * the specification: one per handler, each giving the reply and the next
 * session record. `Session` is the per-session record the handlers update
 * in place, and `UssdService` holds the session store.
 */
module UssdSession {
  import opened Wrappers
  import opened Text
  import opened UssdMenu

  /**
   * The values `session["state"]` takes. The handlers only ever store these
   * eight strings, so the state is a closed enumeration here.
   */
  datatype State = Main | BrowseSubjects | BrowseGrades | ResourceList | RequestSms | GetAiSummary | Help | Exit {
    /** The string the source stores for this state. */
    function Name(): string {
      match this
      case Main => "main"
      case BrowseSubjects => "browse_subjects"
      case BrowseGrades => "browse_grades"
      case ResourceList => "resource_list"
      case RequestSms => "request_sms"
      case GetAiSummary => "get_ai_summary"
      case Help => "help"
      case Exit => "exit"
    }
  }

  /** The fields of a session that the handlers read and write. */
  datatype SessionData = SessionData(state: State, subject: Option<string>, grade: Option<string>, resources: seq<Resource>)

  /** The record a request with an unknown session id starts from. */
  const InitialSession := SessionData(Main, None, None, [])

  /** A handler's reply and the session record it leaves behind. */
  datatype Outcome = Outcome(reply: string, next: SessionData)

  const InvalidSelection := "Invalid selection. Please try again.\n\n"
  const Goodbye := "Thank you for using LMS USSD. Goodbye!"
  const InvalidNumber := "Please enter a valid number."
  const InvalidResourceNumber := "Invalid resource number. Please try again."
  const SmsFailed := "Failed to send SMS. Please try again.\n\n"

  const Subjects := ["Mathematics", "Science", "English", "History", "Geography"]
  const Grades := ["K-5", "6-8", "9-12", "college"]

  /** The subject each key of the subject screen stands for, as its text lists them. */
  const SubjectKeys: map<string, string> :=
    map["1" := "Mathematics", "2" := "Science", "3" := "English", "4" := "History", "5" := "Geography"]
  /** The grade each key of the grade screen stands for, as its text lists them. */
  const GradeKeys: map<string, string> := map["1" := "K-5", "2" := "6-8", "3" := "9-12", "4" := "college"]

  /** The states `_handle_user_input` dispatches on; every other state is reset. */
  predicate Dispatched(s: State) {
    !(s.Help? || s.Exit?)
  }

  /**
   * What holds of every session the handlers produce: a subject and grade
   * from the menus, and a subject (and grade) wherever the state is
   * downstream of choosing one.
   */
  predicate WellFormed(d: SessionData) {
    && (d.subject.Some? ==> d.subject.value in Subjects)
    && (d.grade.Some? ==> d.grade.value in Grades)
    && (d.state in {BrowseGrades, ResourceList, RequestSms, GetAiSummary} ==> d.subject.Some?)
    && (d.state in {ResourceList, RequestSms, GetAiSummary} ==> d.grade.Some?)
  }

  lemma InitialSessionWellFormed()
    ensures WellFormed(InitialSession)
  {
  }

  /** The resource list screen with the listing of `rs` filled in. */
  function ResourcesScreen(rs: seq<Resource>): string {
    FillResourceList(ResourcesText(rs))
  }

  /** Python's f-string rendering of an optional string. */
  function PyStr(o: Option<string>): string {
    match o
    case None => "None"
    case Some(s) => s
  }

  /** The reply when a subject and grade have no resources. */
  function NoResourcesReply(subject: Option<string>, grade: string): string {
    "No resources found for " + PyStr(subject) + " - " + grade + "\n\n1. Try different subject/grade\n2. Back to main"
  }

  function SmsPrompt(count: nat): string {
    "Enter the resource number (1-" + NatToString(count) + ") to receive SMS link:"
  }

  function SummaryPrompt(count: nat): string {
    "Enter the resource number (1-" + NatToString(count) + ") to get AI summary:"
  }

  // ---------------------------------------------------------------------
  // The handlers

  // The step functions below are the specification of the handlers: each
  // states, with the screen texts and key tables written out, the reply and
  // the session record a handler leaves behind.

  /**
   * `_handle_main_menu`: key 1 opens the subject menu, 2 the help screen and 3
   * ends the session; any other key is refused. Only the state changes.
   */
  function MainMenuStep(d: SessionData, selection: string): (o: Outcome)
    ensures o.next == d.(state := o.next.state)
    ensures selection == "1" ==> o == Outcome(SubjectMenuText, d.(state := BrowseSubjects))
    ensures selection == "2" ==> o == Outcome(HelpText, d.(state := Help))
    ensures selection == "3" ==> o == Outcome(Goodbye, d.(state := Exit))
    ensures selection != "1" && selection != "2" && selection != "3" ==> o == Outcome(InvalidSelection + MainMenuText, d)
  {
    if selection == "1" then Outcome(SubjectMenuText, d.(state := BrowseSubjects))
    else if selection == "2" then Outcome(HelpText, d.(state := Help))
    else if selection == "3" then Outcome(Goodbye, d.(state := Exit))
    else Outcome(InvalidSelection + MainMenuText, d)
  }

  /** `_handle_subject_selection`: keys 1 to 5 choose a subject, 6 goes back. */
  function SubjectStep(d: SessionData, selection: string): (o: Outcome)
    ensures o.next == d.(state := o.next.state, subject := o.next.subject)
    ensures selection == "6" ==> o == Outcome(MainMenuText, d.(state := Main))
    ensures selection in SubjectKeys ==>
      o == Outcome(GradeMenuText, d.(state := BrowseGrades, subject := Some(SubjectKeys[selection])))
    ensures selection != "6" && selection !in SubjectKeys ==> o == Outcome(InvalidSelection + SubjectMenuText, d)
  {
    if selection == "6" then Outcome(MainMenuText, d.(state := Main))
    else if selection in SubjectKeys then
      Outcome(GradeMenuText, d.(state := BrowseGrades, subject := Some(SubjectKeys[selection])))
    else Outcome(InvalidSelection + SubjectMenuText, d)
  }

  /**
   * `_handle_grade_selection`: keys 1 to 4 choose a grade and store the
   * resources found for it, 5 goes back; `fetched` is what
   * `_fetch_resources` returns for the session's subject and that grade.
   */
  function GradeStep(d: SessionData, selection: string, fetched: seq<Resource>): (o: Outcome)
    ensures o.next.subject == d.subject
    ensures selection == "5" ==> o == Outcome(SubjectMenuText, d.(state := BrowseSubjects))
    ensures selection in GradeKeys ==>
      && o.next == d.(state := ResourceList, grade := Some(GradeKeys[selection]), resources := fetched)
      && o.reply == if fetched == [] then NoResourcesReply(d.subject, GradeKeys[selection]) else ResourcesScreen(fetched)
    ensures selection != "5" && selection !in GradeKeys ==> o == Outcome(InvalidSelection + GradeMenuText, d)
  {
    if selection == "5" then Outcome(SubjectMenuText, d.(state := BrowseSubjects))
    else if selection in GradeKeys then
      var grade := GradeKeys[selection];
      var next := d.(state := ResourceList, grade := Some(grade), resources := fetched);
      if fetched == [] then Outcome(NoResourcesReply(d.subject, grade), next)
      else Outcome(ResourcesScreen(fetched), next)
    else Outcome(InvalidSelection + GradeMenuText, d)
  }

  /**
   * `_handle_resource_options`: key 1 asks for the number of the resource to
   * send by SMS, 2 for the one to summarize, 3 goes back to the subjects and
   * 4 to the main menu; any other key is refused. Only the state changes.
   */
  function ResourceOptionsStep(d: SessionData, selection: string): (o: Outcome)
    ensures o.next == d.(state := o.next.state)
    ensures selection == "1" ==> o == Outcome(SmsPrompt(|d.resources|), d.(state := RequestSms))
    ensures selection == "2" ==> o == Outcome(SummaryPrompt(|d.resources|), d.(state := GetAiSummary))
    ensures selection == "3" ==> o == Outcome(SubjectMenuText, d.(state := BrowseSubjects))
    ensures selection == "4" ==> o == Outcome(MainMenuText, d.(state := Main))
    ensures selection != "1" && selection != "2" && selection != "3" && selection != "4"
            ==> o == Outcome(InvalidSelection + ResourcesScreen(d.resources), d)
  {
    if selection == "1" then Outcome(SmsPrompt(|d.resources|), d.(state := RequestSms))
    else if selection == "2" then Outcome(SummaryPrompt(|d.resources|), d.(state := GetAiSummary))
    else if selection == "3" then Outcome(SubjectMenuText, d.(state := BrowseSubjects))
    else if selection == "4" then Outcome(MainMenuText, d.(state := Main))
    else Outcome(InvalidSelection + ResourcesScreen(d.resources), d)
  }

  /** How `int(user_input) - 1` selects from a list of `count` resources. */
  datatype Choice = NotANumber | OutOfRange | Index(i: nat)

  function ChooseResource(input: string, count: nat): (c: Choice)
    ensures c == NotANumber <==> ParseInt(input).None?
    ensures c.Index? <==> ParseInt(input).Some? && 1 <= ParseInt(input).value <= count
    ensures c.Index? ==> c.i < count && c.i == ParseInt(input).value - 1
  {
    match ParseInt(input)
    case None => NotANumber
    case Some(n) =>
      var index := n - 1;
      if 0 <= index < count then Index(index) else OutOfRange
  }

  /** Every number the prompt offers, typed as `str(k)`, selects resource `k - 1`. */
  lemma ChooseListedNumber(k: nat, count: nat)
    requires 1 <= k <= count
    ensures ChooseResource(NatToString(k), count) == Index(k - 1)
  {
    ParseNatToString(k);
  }

  /**
   * `_handle_sms_request`; `smsSent` is what `_send_sms_link` reports. A
   * listed number reports on the link and returns to the list; anything
   * else is refused with a notice. Only the state changes.
   */
  function SmsStep(d: SessionData, input: string, smsSent: bool): (o: Outcome)
    ensures o.next == d.(state := o.next.state)
    ensures var c := ChooseResource(input, |d.resources|);
      && (c.Index? ==> o.next == d.(state := ResourceList))
      && (c.Index? ==> o.reply == (if smsSent then "SMS sent with link to: " + d.resources[c.i].title + "\n\n" else SmsFailed)
                                  + ResourcesScreen(d.resources))
      && (!c.Index? ==> o == Outcome(if c == NotANumber then InvalidNumber else InvalidResourceNumber, d))
  {
    match ChooseResource(input, |d.resources|)
    case NotANumber => Outcome(InvalidNumber, d)
    case OutOfRange => Outcome(InvalidResourceNumber, d)
    case Index(i) =>
      var head := if smsSent then "SMS sent with link to: " + d.resources[i].title + "\n\n" else SmsFailed;
      Outcome(head + ResourcesScreen(d.resources), d.(state := ResourceList))
  }

  /**
   * `_handle_ai_summary`: a listed number shows that resource's summary and
   * returns to the list; anything else is refused with a notice. Only the
   * state changes.
   */
  function AiSummaryStep(d: SessionData, input: string): (o: Outcome)
    ensures o.next == d.(state := o.next.state)
    ensures var c := ChooseResource(input, |d.resources|);
      && (c.Index? ==> o.next == d.(state := ResourceList))
      && (c.Index? ==> o.reply == "AI Summary for " + d.resources[c.i].title + ":\n\n" + AiSummary(d.resources[c.i])
                                  + "\n\n" + ResourcesScreen(d.resources))
      && (!c.Index? ==> o == Outcome(if c == NotANumber then InvalidNumber else InvalidResourceNumber, d))
  {
    match ChooseResource(input, |d.resources|)
    case NotANumber => Outcome(InvalidNumber, d)
    case OutOfRange => Outcome(InvalidResourceNumber, d)
    case Index(i) =>
      var r := d.resources[i];
      Outcome("AI Summary for " + r.title + ":\n\n" + AiSummary(r) + "\n\n" + ResourcesScreen(d.resources),
              d.(state := ResourceList))
  }

  /** `_handle_user_input`: dispatch on the session's state; help and exit reset it. */
  function UserInputStep(d: SessionData, input: string, fetched: seq<Resource>, smsSent: bool): (o: Outcome)
    ensures !Dispatched(d.state) ==> o == Outcome(MainMenuText, d.(state := Main))
  {
    match d.state
    case Main => MainMenuStep(d, input)
    case BrowseSubjects => SubjectStep(d, input)
    case BrowseGrades => GradeStep(d, input, fetched)
    case ResourceList => ResourceOptionsStep(d, input)
    case RequestSms => SmsStep(d, input, smsSent)
    case GetAiSummary => AiSummaryStep(d, input)
    case _ => Outcome(MainMenuText, d.(state := Main))
  }

  /**
   * `process_ussd_request` on one session record, given the stripped input:
   * empty input shows the main menu and resets the state, whatever it was.
   */
  function Step(d: SessionData, input: string, fetched: seq<Resource>, smsSent: bool): (o: Outcome)
    ensures input == [] ==> o.next == d.(state := Main)
  {
    if input == [] then Outcome(MainMenuText, d.(state := Main))
    else UserInputStep(d, input, fetched, smsSent)
  }

  /** Every handler keeps a well-formed session well formed. */
  lemma StepPreservesWellFormed(d: SessionData, input: string, fetched: seq<Resource>, smsSent: bool)
    requires WellFormed(d)
    ensures WellFormed(Step(d, input, fetched, smsSent).next)
  {
    if input != [] {
      var o := UserInputStep(d, input, fetched, smsSent);
      match d.state
      case Main => assert o == MainMenuStep(d, input);
      case BrowseSubjects => SubjectStepWellFormed(d, input);
      case BrowseGrades => GradeStepWellFormed(d, input, fetched);
      case ResourceList => assert o == ResourceOptionsStep(d, input);
      case RequestSms => assert o == SmsStep(d, input, smsSent);
      case GetAiSummary => assert o == AiSummaryStep(d, input);
      case Help =>
      case Exit =>
    }
  }

  /** Choosing a subject stores one of the five subjects. */
  lemma SubjectStepWellFormed(d: SessionData, selection: string)
    requires WellFormed(d)
    ensures WellFormed(SubjectStep(d, selection).next)
  {
  }

  /** Choosing a grade stores one of the four grades, after a subject was chosen. */
  lemma GradeStepWellFormed(d: SessionData, selection: string, fetched: seq<Resource>)
    requires WellFormed(d) && d.state == BrowseGrades
    ensures WellFormed(GradeStep(d, selection, fetched).next)
  {
  }

  /** Input made only of whitespace, the empty string included, shows the main menu from any state. */
  lemma BlankInputShowsMainMenu(d: SessionData, text: string, fetched: seq<Resource>, smsSent: bool)
    requires AllSpace(text)
    ensures Step(d, Strip(text), fetched, smsSent) == Outcome(MainMenuText, d.(state := Main))
  {
    StripEmptyIff(text);
  }

  /**
   * In the four menu states, every selection that the screen's option table
   * does not list is answered with the invalid-selection notice and leaves
   * the session as it was.
   */
  lemma InvalidSelectionKeepsSession(d: SessionData, selection: string, fetched: seq<Resource>, smsSent: bool)
    requires d.state in {Main, BrowseSubjects, BrowseGrades, ResourceList}
    requires selection !in MenuFor(d.state.Name()).options
    ensures UserInputStep(d, selection, fetched, smsSent).next == d
    ensures UserInputStep(d, selection, fetched, smsSent).reply
         == InvalidSelection + (if d.state == ResourceList then ResourcesScreen(d.resources) else GetMenu(d.state.Name()))
  {
    match d.state
    case Main => InvalidOnMainMenu(d, selection);
    case BrowseSubjects => InvalidOnSubjectMenu(d, selection);
    case BrowseGrades => InvalidOnGradeMenu(d, selection, fetched);
    case ResourceList => InvalidOnResourceList(d, selection);
  }

  // One lemma per menu state: a key the screen does not list is refused by its handler.

  lemma InvalidOnMainMenu(d: SessionData, selection: string)
    requires selection !in MenuFor("main").options
    ensures MainMenuStep(d, selection) == Outcome(InvalidSelection + MainMenuText, d)
  {
  }

  lemma InvalidOnSubjectMenu(d: SessionData, selection: string)
    requires selection !in MenuFor("browse_subjects").options
    ensures SubjectStep(d, selection) == Outcome(InvalidSelection + SubjectMenuText, d)
  {
  }

  lemma InvalidOnGradeMenu(d: SessionData, selection: string, fetched: seq<Resource>)
    requires selection !in MenuFor("browse_grades").options
    ensures GradeStep(d, selection, fetched) == Outcome(InvalidSelection + GradeMenuText, d)
  {
  }

  lemma InvalidOnResourceList(d: SessionData, selection: string)
    requires selection !in MenuFor("resource_list").options
    ensures ResourceOptionsStep(d, selection) == Outcome(InvalidSelection + ResourcesScreen(d.resources), d)
  {
  }

  /**
   * The subject screen's option table agrees with the subject keys: the
   * handler it names for a key is one of the five subjects exactly when the
   * key is one of 1 to 5, and then it is that key's subject.
   */
  lemma SubjectOptions(selection: string)
    ensures GetOptionHandler("browse_subjects", selection) in Subjects <==> selection in SubjectKeys
    ensures selection in SubjectKeys ==> GetOptionHandler("browse_subjects", selection) == SubjectKeys[selection]
  {
  }

  /**
   * The main menu's handler follows its option table: a listed key moves to
   * the state the table names, and any other key leaves the session as it was.
   */
  lemma MainOptions(d: SessionData, selection: string)
    ensures selection in MenuFor("main").options ==>
      MainMenuStep(d, selection).next.state.Name() == GetOptionHandler("main", selection)
    ensures selection !in MenuFor("main").options ==> MainMenuStep(d, selection).next == d
  {
  }

  /** The resource list's handler follows its option table, as the main menu's does. */
  lemma ResourceListOptions(d: SessionData, selection: string)
    ensures selection in MenuFor("resource_list").options ==>
      ResourceOptionsStep(d, selection).next.state.Name() == GetOptionHandler("resource_list", selection)
    ensures selection !in MenuFor("resource_list").options ==> ResourceOptionsStep(d, selection).next == d
  {
  }

  /** The grade screen's option table agrees with the grade keys, as for subjects. */
  lemma GradeOptions(selection: string)
    ensures GetOptionHandler("browse_grades", selection) in Grades <==> selection in GradeKeys
    ensures selection in GradeKeys ==> GetOptionHandler("browse_grades", selection) == GradeKeys[selection]
  {
  }

  // ---------------------------------------------------------------------
  // The trailing comma of the "no resources" reply

  /** A handler's Python return value: a string, or a one-element tuple. */
  datatype PyReply = Str(text: string) | OneTuple(item: string)

  /** The grade handler's reply for an empty result as the source writes it: a tuple. */
  function NoResourcesReplyAsWritten(subject: Option<string>, grade: string): PyReply {
    OneTuple(NoResourcesReply(subject, grade))
  }

  /**
   * The endpoint puts the reply into a response whose text must be a
   * string; anything else fails validation, which it turns into status 500.
   */
  function ResponseText(reply: PyReply): (r: Result<string, int>)
    ensures r.Ok? <==> reply.Str?
    ensures reply.Str? ==> r == Ok(reply.text)
    ensures reply.OneTuple? ==> r == Err(500)
  {
    match reply
    case Str(s) => Ok(s)
    case OneTuple(_) => Err(500)
  }

  /** As written, choosing a grade with no resources ends in an internal server error. */
  lemma NoResourcesAsWrittenFails(subject: Option<string>, grade: string)
    ensures ResponseText(NoResourcesReplyAsWritten(subject, grade)) == Err(500)
  {
  }

  /**
   * The grade handler's Python return value as written: the tuple for a grade
   * with no resources, the step's reply as a string otherwise.
   */
  function GradeReplyAsWritten(d: SessionData, selection: string, fetched: seq<Resource>): (r: PyReply)
    ensures selection in GradeKeys && fetched == [] ==> r.OneTuple?
    ensures !(selection in GradeKeys && fetched == []) ==> r == Str(GradeStep(d, selection, fetched).reply)
  {
    if selection in GradeKeys && fetched == [] then NoResourcesReplyAsWritten(d.subject, GradeKeys[selection])
    else Str(GradeStep(d, selection, fetched).reply)
  }

  /**
   * As written, every grade key on the grade menu with nothing found ends in
   * status 500, although the step moves the session on to the resource list.
   */
  lemma GradeWithoutResourcesFailsAsWritten(d: SessionData, selection: string)
    requires d.state == BrowseGrades && selection in GradeKeys
    ensures ResponseText(GradeReplyAsWritten(d, selection, [])) == Err(500)
    ensures GradeStep(d, selection, []).next.state == ResourceList
  {
  }

  /** The model's reply instead names the subject and grade and reaches the caller as text. */
  lemma NoResourcesReplyReachesCaller(d: SessionData, selection: string)
    requires d.state == BrowseGrades && selection in GradeKeys
    ensures var o := UserInputStep(d, selection, [], false);
      ResponseText(Str(o.reply)) == Ok(NoResourcesReply(d.subject, GradeKeys[selection]))
      && o.next.state == ResourceList
  {
  }

  // ---------------------------------------------------------------------
  // The session record and the session store

  /** The session dictionary the handlers update in place. */
  class Session {
    var state: State
    var subject: Option<string>
    var grade: Option<string>
    var resources: seq<Resource>

    function Data(): SessionData
      reads this
    {
      SessionData(state, subject, grade, resources)
    }

    constructor ()
      ensures Data() == InitialSession
    {
      state := Main;
      subject := None;
      grade := None;
      resources := [];
    }

    /** `_get_resource_list_text`. */
    method ResourceListText() returns (text: string)
      ensures text == ResourcesScreen(resources)
    {
      var listed := FormatResourcesForUssd(resources);
      text := GetMenu("resource_list", Some(listed));
    }

    method HandleMainMenu(selection: string) returns (reply: string)
      modifies this
      ensures Outcome(reply, Data()) == MainMenuStep(old(Data()), selection)
    {
      if selection == "1" {
        state := BrowseSubjects;
        reply := GetMenu("browse_subjects");
      } else if selection == "2" {
        state := Help;
        reply := GetMenu("help");
      } else if selection == "3" {
        state := Exit;
        reply := Goodbye;
      } else {
        reply := InvalidSelection + GetMenu("main");
      }
    }

    method HandleSubjectSelection(selection: string) returns (reply: string)
      modifies this
      ensures Outcome(reply, Data()) == SubjectStep(old(Data()), selection)
    {
      if selection == "6" {
        state := Main;
        return GetMenu("main");
      }
      var chosen := GetOptionHandler("browse_subjects", selection);
      SubjectOptions(selection);
      if chosen in Subjects {
        subject := Some(chosen);
        state := BrowseGrades;
        reply := GetMenu("browse_grades");
      } else {
        reply := InvalidSelection + GetMenu("browse_subjects");
      }
    }

    method HandleGradeSelection(selection: string, fetched: seq<Resource>) returns (reply: string)
      modifies this
      ensures Outcome(reply, Data()) == GradeStep(old(Data()), selection, fetched)
    {
      if selection == "5" {
        state := BrowseSubjects;
        return GetMenu("browse_subjects");
      }
      var chosen := GetOptionHandler("browse_grades", selection);
      GradeOptions(selection);
      if chosen in Grades {
        grade := Some(chosen);
        resources := fetched;
        state := ResourceList;
        if fetched == [] {
          return NoResourcesReply(subject, chosen);
        }
        var listed := FormatResourcesForUssd(fetched);
        reply := GetMenu("resource_list", Some(listed));
      } else {
        reply := InvalidSelection + GetMenu("browse_grades");
      }
    }

    method HandleResourceOptions(selection: string) returns (reply: string)
      modifies this
      ensures Outcome(reply, Data()) == ResourceOptionsStep(old(Data()), selection)
    {
      if selection == "1" {
        state := RequestSms;
        reply := SmsPrompt(|resources|);
      } else if selection == "2" {
        state := GetAiSummary;
        reply := SummaryPrompt(|resources|);
      } else if selection == "3" {
        state := BrowseSubjects;
        reply := GetMenu("browse_subjects");
      } else if selection == "4" {
        state := Main;
        reply := GetMenu("main");
      } else {
        var listText := ResourceListText();
        reply := InvalidSelection + listText;
      }
    }

    method HandleSmsRequest(input: string, smsSent: bool) returns (reply: string)
      modifies this
      ensures Outcome(reply, Data()) == SmsStep(old(Data()), input, smsSent)
    {
      var parsed := ParseInt(input);
      if parsed.None? {
        assert ChooseResource(input, |resources|) == NotANumber;
        return InvalidNumber;
      }
      var index := parsed.value - 1;
      if 0 <= index < |resources| {
        assert ChooseResource(input, |resources|) == Index(index);
        var resource := resources[index];
        state := ResourceList;
        var listText := ResourceListText();
        if smsSent {
          reply := "SMS sent with link to: " + resource.title + "\n\n" + listText;
        } else {
          reply := SmsFailed + listText;
        }
      } else {
        assert ChooseResource(input, |resources|) == OutOfRange;
        reply := InvalidResourceNumber;
      }
    }

    method HandleAiSummary(input: string) returns (reply: string)
      modifies this
      ensures Outcome(reply, Data()) == AiSummaryStep(old(Data()), input)
    {
      var parsed := ParseInt(input);
      if parsed.None? {
        assert ChooseResource(input, |resources|) == NotANumber;
        return InvalidNumber;
      }
      var index := parsed.value - 1;
      if 0 <= index < |resources| {
        assert ChooseResource(input, |resources|) == Index(index);
        var resource := resources[index];
        var summary := AiSummary(resource);
        state := ResourceList;
        var listText := ResourceListText();
        reply := "AI Summary for " + resource.title + ":\n\n" + summary + "\n\n" + listText;
      } else {
        assert ChooseResource(input, |resources|) == OutOfRange;
        reply := InvalidResourceNumber;
      }
    }

    method HandleUserInput(input: string, fetched: seq<Resource>, smsSent: bool) returns (reply: string)
      modifies this
      ensures Outcome(reply, Data()) == UserInputStep(old(Data()), input, fetched, smsSent)
    {
      if state == Main {
        reply := HandleMainMenu(input);
      } else if state == BrowseSubjects {
        reply := HandleSubjectSelection(input);
      } else if state == BrowseGrades {
        reply := HandleGradeSelection(input, fetched);
      } else if state == ResourceList {
        reply := HandleResourceOptions(input);
      } else if state == RequestSms {
        reply := HandleSmsRequest(input, smsSent);
      } else if state == GetAiSummary {
        reply := HandleAiSummary(input);
      } else {
        state := Main;
        reply := GetMenu("main");
      }
    }

    /** What `process_ussd_request` does with a session once the input is stripped. */
    method Answer(input: string, fetched: seq<Resource>, smsSent: bool) returns (reply: string)
      modifies this
      ensures Outcome(reply, Data()) == Step(old(Data()), input, fetched, smsSent)
      ensures WellFormed(old(Data())) ==> WellFormed(Data())
    {
      if WellFormed(Data()) {
        StepPreservesWellFormed(Data(), input, fetched, smsSent);
      }
      if input == [] {
        reply := GetMenu("main");
        state := Main;
      } else {
        reply := HandleUserInput(input, fetched, smsSent);
      }
    }
  }

  lemma UpdatedKeys<K, V>(m: map<K, V>, k: K, v: V)
    ensures m[k := v].Keys == m.Keys + {k}
  {
  }

  /** `USSDService` with its session store, keyed by session id. */
  class UssdService {
    var sessions: map<string, Session>

    /**
     * Every stored session is well formed, and no two ids share a session
     * object: each request on a new id creates a fresh record.
     */
    ghost predicate Valid()
      reads this, sessions.Values
    {
      && (forall id | id in sessions :: WellFormed(sessions[id].Data()))
      && (forall a, b | a in sessions && b in sessions && a != b :: sessions[a] != sessions[b])
    }

    constructor ()
      ensures Valid() && sessions == map[]
    {
      sessions := map[];
    }

    /** The session object a request for `id` may update. */
    function Footprint(id: string): set<object>
      reads this
    {
      if id in sessions then {sessions[id]} else {}
    }

    /**
     * `process_ussd_request`: strip the input, then answer it on the session
     * stored under `sessionId`.
     */
    method ProcessUssdRequest(sessionId: string, text: string, fetched: seq<Resource>, smsSent: bool) returns (reply: string)
      requires Valid()
      modifies this, Footprint(sessionId)
      ensures Valid()
      ensures sessionId in sessions && sessions == old(sessions)[sessionId := sessions[sessionId]]
      ensures forall id | id in old(sessions) && id != sessionId :: sessions[id].Data() == old(sessions[id].Data())
      ensures sessionId in old(sessions) ==> sessions[sessionId] == old(sessions[sessionId])
      ensures sessionId !in old(sessions) ==> fresh(sessions[sessionId])
      ensures var before := if sessionId in old(sessions) then old(sessions[sessionId].Data()) else InitialSession;
        Outcome(reply, sessions[sessionId].Data()) == Step(before, Strip(text), fetched, smsSent)
    {
      var input := Strip(text);
      reply := Respond(sessionId, input, fetched, smsSent);
    }

    /**
     * Fetches or creates the session for `sessionId`, answers the already
     * stripped `input` on it and stores it back under its id.
     */
    method Respond(sessionId: string, input: string, fetched: seq<Resource>, smsSent: bool) returns (reply: string)
      requires Valid()
      modifies this, Footprint(sessionId)
      ensures Valid()
      ensures sessionId in sessions && sessions == old(sessions)[sessionId := sessions[sessionId]]
      ensures forall id | id in old(sessions) && id != sessionId :: sessions[id].Data() == old(sessions[id].Data())
      ensures sessionId in old(sessions) ==> sessions[sessionId] == old(sessions[sessionId])
      ensures sessionId !in old(sessions) ==> fresh(sessions[sessionId])
      ensures var before := if sessionId in old(sessions) then old(sessions[sessionId].Data()) else InitialSession;
        Outcome(reply, sessions[sessionId].Data()) == Step(before, input, fetched, smsSent)
    {
      var session := SessionFor(sessionId);
      ghost var before := session.Data();
      assert before == if sessionId in old(sessions) then old(sessions[sessionId].Data()) else InitialSession;
      reply := session.Answer(input, fetched, smsSent);
      assert sessions == old(sessions);
      assert Outcome(reply, session.Data()) == Step(before, input, fetched, smsSent);
      Store(sessionId, session);
    }

    /** `ussd_sessions.get(session_id, ...)`: the stored session, or a new one when there is none. */
    method SessionFor(sessionId: string) returns (session: Session)
      requires Valid()
      ensures sessionId in sessions ==> session == sessions[sessionId]
      ensures sessionId !in sessions ==> fresh(session) && session.Data() == InitialSession
      ensures forall id | id in sessions && id != sessionId :: sessions[id] != session
      ensures WellFormed(session.Data())
    {
      if sessionId in sessions {
        session := sessions[sessionId];
      } else {
        session := new Session();
      }
    }

    /** `ussd_sessions[session_id] = session`, for a well-formed session. */
    method Store(sessionId: string, session: Session)
      requires WellFormed(session.Data())
      requires forall id | id in sessions && id != sessionId :: WellFormed(sessions[id].Data())
      requires forall id | id in sessions && id != sessionId :: sessions[id] != session
      requires forall a, b | a in sessions && b in sessions && a != b :: sessions[a] != sessions[b]
      modifies this
      ensures sessions == old(sessions)[sessionId := session]
      ensures sessions.Keys == old(sessions.Keys) + {sessionId}
      ensures Valid()
    {
      UpdatedKeys(sessions, sessionId, session);
      sessions := sessions[sessionId := session];
    }
  }
}
