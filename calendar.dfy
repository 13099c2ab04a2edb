/** The schedule calendar: assignment rows become calendar events titled with
    the employee's and the product's names, events are coloured by status, the
    new-assignment form is filled from a selected slot and inserted with status
    "scheduled", and the events are exported as spreadsheet rows. The three
    queries, the insert and the date formatting are parameters. */
module Calendar {
  import opened Values
  import opened Records
  import opened Metrics

  /* ------------------------------------------------------- names and titles */

  /** `rows.find(r => r.key === key)`: the index of the first row with that key. */
  function FirstWithKey(rows: seq<NamedRow>, key: string): (r: Option<nat>)
    ensures r.Some? ==> r.value < |rows| && rows[r.value].key == key
    ensures r.Some? ==> forall k :: 0 <= k < r.value ==> rows[k].key != key
    ensures r.None? ==> forall k :: 0 <= k < |rows| ==> rows[k].key != key
  {
    if rows == [] then None
    else if rows[0].key == key then Some(0)
    else
      match FirstWithKey(rows[1..], key)
      case None => None
      case Some(j) => Some(j + 1)
  }

  /** `rows.find(r => r.key === key)?.name || key` */
  function LabelFor(rows: seq<NamedRow>, key: string): string {
    match FirstWithKey(rows, key)
    case None => key
    case Some(i) => OrElse(rows[i].name.GetOr(""), key)
  }

  /** The label is the name of the FIRST row with the key when that name is
      non-empty, and the key itself otherwise: when no row has the key, or when
      the first such row has no name (a later row's name is never used). */
  lemma LabelIsFirstNameOrKey(rows: seq<NamedRow>, key: string)
    ensures (forall k :: 0 <= k < |rows| ==> rows[k].key != key) ==> LabelFor(rows, key) == key
    ensures forall k :: 0 <= k < |rows| && rows[k].key == key && (forall j :: 0 <= j < k ==> rows[j].key != key) ==>
      LabelFor(rows, key) == (if rows[k].name.GetOr("") != "" then rows[k].name.value else key)
  {
    var f := FirstWithKey(rows, key);
    forall k | 0 <= k < |rows| && rows[k].key == key && (forall j :: 0 <= j < k ==> rows[j].key != key)
      ensures LabelFor(rows, key) == (if rows[k].name.GetOr("") != "" then rows[k].name.value else key)
    {
      assert f.Some?;
      assert !(f.value < k);
      assert !(k < f.value);
    }
  }

  /** `${employee?.name || employee_id} - ${product?.name || product_code}` */
  function Title(a: AssignmentRow, employees: seq<NamedRow>, products: seq<NamedRow>): string {
    LabelFor(employees, a.employeeId) + " - " + LabelFor(products, a.productCode)
  }

  /* ----------------------------------------------------------------- events */

  /** A calendar event. The start and end are kept as the row's text: turning
      them into dates is not modelled. */
  datatype CalendarEvent = CalendarEvent(id: int, title: string, start: string, end: string, resource: AssignmentRow)

  /** The transform in `loadData`: one event per assignment, in order, with the
      assignment's id, its times, its title, and the row itself as the resource. */
  function ToEvents(assignments: seq<AssignmentRow>, employees: seq<NamedRow>, products: seq<NamedRow>)
    : (events: seq<CalendarEvent>)
    ensures |events| == |assignments|
    ensures forall i :: 0 <= i < |events| ==>
      && events[i].id == assignments[i].id
      && events[i].resource == assignments[i]
      && events[i].start == assignments[i].startTime
      && events[i].end == assignments[i].endTime
      && events[i].title == Title(assignments[i], employees, products)
  {
    seq(|assignments|, i requires 0 <= i < |assignments| =>
      CalendarEvent(assignments[i].id, Title(assignments[i], employees, products),
                    assignments[i].startTime, assignments[i].endTime, assignments[i]))
  }

  /** The events are exactly the rows: every event carries one of the
      assignments, and every assignment is carried by some event. */
  lemma EventsAreTheRows(assignments: seq<AssignmentRow>, employees: seq<NamedRow>, products: seq<NamedRow>)
    ensures var events := ToEvents(assignments, employees, products);
      && (forall i :: 0 <= i < |events| ==> events[i].resource in assignments)
      && (forall a :: a in assignments ==> exists i :: 0 <= i < |events| && events[i].resource == a)
  {
    var events := ToEvents(assignments, employees, products);
    forall a | a in assignments
      ensures exists i :: 0 <= i < |events| && events[i].resource == a
    {
      var i :| 0 <= i < |assignments| && assignments[i] == a;
      assert events[i].resource == a;
    }
  }

  /* ----------------------------------------------------------------- colour */

  /** `eventStyleGetter`: the background colour starts as the default and the
      `switch` on the status overrides it for the three named statuses. The
      colour is the one the status chart gives the slice the status counts in. */
  method EventStyleGetter(event: CalendarEvent) returns (backgroundColor: string)
    ensures event.resource.status == Some(Completed) ==> backgroundColor == "#10B981"
    ensures event.resource.status == Some(InProgress) ==> backgroundColor == "#F59E0B"
    ensures event.resource.status == Some(Delayed) ==> backgroundColor == "#EF4444"
    ensures event.resource.status !in {Some(Completed), Some(InProgress), Some(Delayed)} ==> backgroundColor == "#3B82F6"
    ensures backgroundColor == SliceColour(SliceOf(event.resource.status))
  {
    backgroundColor := "#3B82F6";
    var status := event.resource.status;
    if status == Some("completed") {
      backgroundColor := "#10B981";
    } else if status == Some("in_progress") {
      backgroundColor := "#F59E0B";
    } else if status == Some("delayed") {
      backgroundColor := "#EF4444";
    } else {
      backgroundColor := "#3B82F6";
    }
  }

  /* ------------------------------------------------------------------ form */

  /** The new-assignment form. */
  datatype AssignmentForm = AssignmentForm(
    employeeId: string, productCode: string, startTime: string, endTime: string, notes: string)

  const EmptyForm := AssignmentForm("", "", "", "", "")

  /** The fields of the form, one per input. */
  datatype FormField = EmployeeField | ProductField | StartField | EndField | NotesField

  /** The row `createAssignment` inserts. */
  datatype NewAssignment = NewAssignment(
    employeeId: string, productCode: string, startTime: string, endTime: string, notes: string, status: string)

  /** `!newAssignment.employee_id || !newAssignment.product_code`: the Create
      button is disabled until both an employee and a product are chosen. */
  predicate CreateDisabled(f: AssignmentForm) {
    f.employeeId == "" || f.productCode == ""
  }

  /* ----------------------------------------------------------------- export */

  /** One spreadsheet row of `exportSchedule`. */
  datatype ExportRow = ExportRow(
    employee: string, product: string, startTime: string, endTime: string, status: Option<string>, notes: string)

  /** `exportSchedule`'s mapping: one row per event, names resolved with the
      same fallback as the titles, times through the date format, and notes
      defaulting to the empty string. */
  function ExportRows(events: seq<CalendarEvent>, employees: seq<NamedRow>, products: seq<NamedRow>,
                      format: string -> string): (rows: seq<ExportRow>)
    ensures |rows| == |events|
    ensures forall i :: 0 <= i < |rows| ==>
      && rows[i].employee == LabelFor(employees, events[i].resource.employeeId)
      && rows[i].product == LabelFor(products, events[i].resource.productCode)
      && rows[i].startTime == format(events[i].start)
      && rows[i].endTime == format(events[i].end)
      && rows[i].status == events[i].resource.status
      && rows[i].notes == events[i].resource.notes.GetOr("")
  {
    seq(|events|, i requires 0 <= i < |events| =>
      var r := events[i].resource;
      ExportRow(LabelFor(employees, r.employeeId), LabelFor(products, r.productCode),
                format(events[i].start), format(events[i].end), r.status, r.notes.GetOr("")))
  }

  /** Exporting the events of a load against the same employees and products
      gives rows whose names are exactly the two halves of each event's title. */
  lemma {:induction false} ExportAgreesWithTitles(assignments: seq<AssignmentRow>, employees: seq<NamedRow>,
                                                  products: seq<NamedRow>, format: string -> string)
    ensures var events := ToEvents(assignments, employees, products);
      var rows := ExportRows(events, employees, products, format);
      && |rows| == |assignments|
      && forall i :: 0 <= i < |rows| ==>
           events[i].title == rows[i].employee + " - " + rows[i].product
           && rows[i].startTime == format(assignments[i].startTime)
  {
  }

  /* ------------------------------------------------------------ the view */

  /** Which query made `loadData` fail, and with what message: a rejected
      promise first (`Promise.all`), then the `error` of the assignments,
      employees and products results, in that order. */
  function LoadFailure(aq: Query<AssignmentRow>, eq: Query<NamedRow>, pq: Query<NamedRow>): (m: Option<string>)
    ensures m.None? <==> aq.Fetched? && eq.Fetched? && pq.Fetched?
  {
    if aq.Rejected? then Some(aq.exceptionMessage)
    else if eq.Rejected? then Some(eq.exceptionMessage)
    else if pq.Rejected? then Some(pq.exceptionMessage)
    else if aq.DbError? then Some(aq.dbMessage)
    else if eq.DbError? then Some(eq.dbMessage)
    else if pq.DbError? then Some(pq.dbMessage)
    else None
  }

  class CalendarView {
    var events: seq<CalendarEvent>
    var employees: seq<NamedRow>
    var products: seq<NamedRow>
    var selectedEvent: Option<AssignmentRow>
    var newAssignment: AssignmentForm
    var showNewDialog: bool

    /** The calendar mounts with no events, no lists, nothing selected, an
        empty form and the dialog closed. */
    constructor()
      ensures events == [] && employees == [] && products == []
      ensures selectedEvent == None && newAssignment == EmptyForm && !showNewDialog
    {
      events := [];
      employees := [];
      products := [];
      selectedEvent := None;
      newAssignment := EmptyForm;
      showNewDialog := false;
    }

    /** `loadData`: when all three queries succeed, the lists are stored (null
        becoming empty) and the events are rebuilt from the assignments;
        otherwise the failure's message is returned for the toast and nothing
        changes. */
    method LoadData(aq: Query<AssignmentRow>, eq: Query<NamedRow>, pq: Query<NamedRow>)
      returns (toast: Option<string>)
      modifies this
      ensures toast == LoadFailure(aq, eq, pq)
      ensures toast.None? ==>
        && employees == RowsOr(eq.data) && products == RowsOr(pq.data)
        && events == ToEvents(RowsOr(aq.data), employees, products)
      ensures toast.Some? ==>
        events == old(events) && employees == old(employees) && products == old(products)
      ensures selectedEvent == old(selectedEvent) && newAssignment == old(newAssignment)
      ensures showNewDialog == old(showNewDialog)
    {
      toast := LoadFailure(aq, eq, pq);
      if toast.Some? {
        return;
      }
      employees := RowsOr(eq.data);
      products := RowsOr(pq.data);
      events := ToEvents(RowsOr(aq.data), RowsOr(eq.data), RowsOr(pq.data));
    }

    /** `handleSelectEvent`: the clicked event's row becomes the selection. */
    method HandleSelectEvent(event: CalendarEvent)
      modifies this
      ensures selectedEvent == Some(event.resource)
      ensures events == old(events) && employees == old(employees) && products == old(products)
      ensures newAssignment == old(newAssignment) && showNewDialog == old(showNewDialog)
    {
      selectedEvent := Some(event.resource);
    }

    /** `handleSelectSlot`: the form gets the slot's start and end (already
        formatted) and empty other fields, and the dialog opens; creating is
        then disabled until an employee and a product are chosen. */
    method HandleSelectSlot(start: string, end: string)
      modifies this
      ensures newAssignment == AssignmentForm("", "", start, end, "")
      ensures showNewDialog
      ensures CreateDisabled(newAssignment)
      ensures events == old(events) && employees == old(employees) && products == old(products)
      ensures selectedEvent == old(selectedEvent)
    {
      newAssignment := AssignmentForm("", "", start, end, "");
      showNewDialog := true;
    }

    /** The form inputs' `onChange` / `onValueChange`: one field is replaced. */
    method EditForm(field: FormField, value: string)
      modifies this
      ensures field == EmployeeField ==> newAssignment == old(newAssignment).(employeeId := value)
      ensures field == ProductField ==> newAssignment == old(newAssignment).(productCode := value)
      ensures field == StartField ==> newAssignment == old(newAssignment).(startTime := value)
      ensures field == EndField ==> newAssignment == old(newAssignment).(endTime := value)
      ensures field == NotesField ==> newAssignment == old(newAssignment).(notes := value)
      ensures events == old(events) && employees == old(employees) && products == old(products)
      ensures selectedEvent == old(selectedEvent) && showNewDialog == old(showNewDialog)
    {
      match field
      case EmployeeField => newAssignment := newAssignment.(employeeId := value);
      case ProductField => newAssignment := newAssignment.(productCode := value);
      case StartField => newAssignment := newAssignment.(startTime := value);
      case EndField => newAssignment := newAssignment.(endTime := value);
      case NotesField => newAssignment := newAssignment.(notes := value);
    }

    /** The dialog's `onOpenChange` and its Cancel button. */
    method SetDialogOpen(open: bool)
      modifies this
      ensures showNewDialog == open
      ensures events == old(events) && employees == old(employees) && products == old(products)
      ensures selectedEvent == old(selectedEvent) && newAssignment == old(newAssignment)
    {
      showNewDialog := open;
    }

    /** `createAssignment`: the inserted row copies the five form fields and
        always has status "scheduled". `insert` answers the insert's error
        message, if any. On success the dialog closes and the form is emptied
        (so creating is disabled again); on failure nothing changes. */
    method CreateAssignment(insert: NewAssignment -> Option<string>) returns (sent: NewAssignment, failure: Option<string>)
      modifies this
      ensures sent.employeeId == old(newAssignment.employeeId) && sent.productCode == old(newAssignment.productCode)
      ensures sent.startTime == old(newAssignment.startTime) && sent.endTime == old(newAssignment.endTime)
      ensures sent.notes == old(newAssignment.notes) && sent.status == "scheduled"
      ensures failure == insert(sent)
      ensures failure.None? ==> !showNewDialog && newAssignment == EmptyForm && CreateDisabled(newAssignment)
      ensures failure.Some? ==> showNewDialog == old(showNewDialog) && newAssignment == old(newAssignment)
      ensures events == old(events) && employees == old(employees) && products == old(products)
      ensures selectedEvent == old(selectedEvent)
    {
      var f := newAssignment;
      sent := NewAssignment(f.employeeId, f.productCode, f.startTime, f.endTime, f.notes, "scheduled");
      failure := insert(sent);
      if failure.None? {
        showNewDialog := false;
        newAssignment := EmptyForm;
      }
    }
  }
}
