/**
 * The global application-state store (lib/store.ts): five fields, six actions that
 * overwrite them in place, the projection that is persisted, and four selectors.
 */
module Store {
  import opened Wrappers

  /** A snapshot of the store's five data fields. `error` is `None` for `null`. */
  datatype AppState = AppState(
    isDarkMode: bool,
    notificationsEnabled: bool,
    isFirstLaunch: bool,
    isLoading: bool,
    error: Option<string>)

  /** The state the store is created with. */
  const Initial: AppState :=
    AppState(isDarkMode := false, notificationsEnabled := true, isFirstLaunch := true,
             isLoading := false, error := None)

  /** The names of the five fields. */
  datatype Field = IsDarkMode | NotificationsEnabled | IsFirstLaunch | IsLoading | Error

  /** The value of one field. */
  datatype FieldValue = Flag(b: bool) | Message(e: Option<string>)

  function Read(s: AppState, f: Field): FieldValue {
    match f
    case IsDarkMode => Flag(s.isDarkMode)
    case NotificationsEnabled => Flag(s.notificationsEnabled)
    case IsFirstLaunch => Flag(s.isFirstLaunch)
    case IsLoading => Flag(s.isLoading)
    case Error => Message(s.error)
  }

  /** Two snapshots are equal exactly when every field reads the same. */
  lemma StateDeterminedByFields(s: AppState, t: AppState)
    requires forall f: Field :: Read(s, f) == Read(t, f)
    ensures s == t
  {
    assert Read(s, IsDarkMode) == Read(t, IsDarkMode);
    assert Read(s, NotificationsEnabled) == Read(t, NotificationsEnabled);
    assert Read(s, IsFirstLaunch) == Read(t, IsFirstLaunch);
    assert Read(s, IsLoading) == Read(t, IsLoading);
    assert Read(s, Error) == Read(t, Error);
  }

  /** The six actions, with their arguments. */
  datatype Action =
    | ToggleTheme
    | ToggleNotifications
    | SetFirstLaunch(value: bool)
    | SetLoading(loading: bool)
    | SetError(message: Option<string>)
    | ClearError

  /** The one field an action's patch names. */
  function Writes(a: Action): Field {
    match a
    case ToggleTheme => IsDarkMode
    case ToggleNotifications => NotificationsEnabled
    case SetFirstLaunch(_) => IsFirstLaunch
    case SetLoading(_) => IsLoading
    case SetError(_) => Error
    case ClearError => Error
  }

  /** The state after an action: its patch is merged into the state, all else is kept. */
  function Step(s: AppState, a: Action): (t: AppState)
    ensures forall f: Field :: f != Writes(a) ==> Read(t, f) == Read(s, f)
  {
    match a
    case ToggleTheme => s.(isDarkMode := !s.isDarkMode)
    case ToggleNotifications => s.(notificationsEnabled := !s.notificationsEnabled)
    case SetFirstLaunch(v) => s.(isFirstLaunch := v)
    case SetLoading(b) => s.(isLoading := b)
    case SetError(e) => s.(error := e)
    case ClearError => s.(error := None)
  }

  /** An action leaves the state as it was exactly when its field already holds the value it writes. */
  lemma {:induction false} StepIsNoOpIff(s: AppState, a: Action)
    ensures Step(s, a) == s <==> Read(Step(s, a), Writes(a)) == Read(s, Writes(a))
  {
    if Read(Step(s, a), Writes(a)) == Read(s, Writes(a)) {
      StateDeterminedByFields(Step(s, a), s);
    }
  }

  /** The toggles negate their flag, and applying one twice restores the state. */
  lemma TogglesAreInvolutions(s: AppState)
    ensures Step(s, ToggleTheme).isDarkMode == !s.isDarkMode
    ensures Step(s, ToggleNotifications).notificationsEnabled == !s.notificationsEnabled
    ensures Step(Step(s, ToggleTheme), ToggleTheme) == s
    ensures Step(Step(s, ToggleNotifications), ToggleNotifications) == s
  {
  }

  /** The setters store exactly their argument; clearing the error is idempotent. */
  lemma SettersStoreArgument(s: AppState, v: bool, e: Option<string>)
    ensures Step(s, SetFirstLaunch(v)).isFirstLaunch == v
    ensures Step(s, SetLoading(v)).isLoading == v
    ensures Step(s, SetError(e)).error == e
    ensures Step(s, ClearError).error == None
    ensures Step(Step(s, ClearError), ClearError) == Step(s, ClearError)
  {
  }

  // ---- persistence ----

  /** The part of the state that is written to durable storage. */
  datatype Persisted = Persisted(isDarkMode: bool, notificationsEnabled: bool, isFirstLaunch: bool)

  const PersistedFields: set<Field> := {IsDarkMode, NotificationsEnabled, IsFirstLaunch}

  /** The persisted projection of a state. */
  function Partialize(s: AppState): (p: Persisted)
    ensures p.isDarkMode == s.isDarkMode && p.notificationsEnabled == s.notificationsEnabled
    ensures p.isFirstLaunch == s.isFirstLaunch
  {
    Persisted(s.isDarkMode, s.notificationsEnabled, s.isFirstLaunch)
  }

  /**
   * Two states have the same projection exactly when they agree on the three persisted
   * fields: `isLoading` and `error` never reach storage.
   */
  lemma PartializeKernel(s: AppState, t: AppState)
    ensures Partialize(s) == Partialize(t) <==>
              forall f :: f in PersistedFields ==> Read(s, f) == Read(t, f)
    ensures IsLoading !in PersistedFields && Error !in PersistedFields
  {
  }

  /**
   * An action changes the persisted projection only if it writes a persisted field; the
   * loading and error actions never do, the toggles always do.
   */
  lemma ProjectionChanges(s: AppState, a: Action)
    ensures Writes(a) !in PersistedFields ==> Partialize(Step(s, a)) == Partialize(s)
    ensures (a.SetLoading? || a.SetError? || a.ClearError?) ==> Partialize(Step(s, a)) == Partialize(s)
    ensures (a.ToggleTheme? || a.ToggleNotifications?) ==> Partialize(Step(s, a)) != Partialize(s)
  {
  }

  // ---- selectors ----

  /** The four selector hooks. */
  datatype Selector = UseTheme | UseNotifications | UseAppLoading | UseAppError

  /** The data fields a selector exposes. */
  function SelectedFields(sel: Selector): set<Field> {
    match sel
    case UseTheme => {IsDarkMode}
    case UseNotifications => {NotificationsEnabled}
    case UseAppLoading => {IsLoading}
    case UseAppError => {Error}
  }

  /** Whether a selector hands out the action `a` (with any argument). */
  predicate ExposesAction(sel: Selector, a: Action) {
    match sel
    case UseTheme => a.ToggleTheme?
    case UseNotifications => a.ToggleNotifications?
    case UseAppLoading => a.SetLoading?
    case UseAppError => a.SetError? || a.ClearError?
  }

  /** What a selector returns: the values of its fields, and nothing else. */
  function Select(s: AppState, sel: Selector): (v: map<Field, FieldValue>)
    ensures v.Keys == SelectedFields(sel)
    ensures forall f :: f in v ==> v[f] == Read(s, f)
  {
    map f | f in SelectedFields(sel) :: Read(s, f)
  }

  /**
   * Each selector's actions write only that selector's own field, so whatever a component
   * does through a selector leaves every field outside the selection unchanged.
   */
  lemma SelectorActionsStayInSlice(sel: Selector, a: Action, s: AppState, f: Field)
    requires ExposesAction(sel, a)
    ensures Writes(a) in SelectedFields(sel)
    ensures f !in SelectedFields(sel) ==> Read(Step(s, a), f) == Read(s, f)
  {
  }

  /** No selector exposes `isFirstLaunch` or its setter, and the four selections are disjoint. */
  lemma SelectorsCoverage(sel: Selector, other: Selector, v: bool)
    ensures IsFirstLaunch !in SelectedFields(sel) && !ExposesAction(sel, SetFirstLaunch(v))
    ensures sel != other ==> SelectedFields(sel) !! SelectedFields(other)
  {
  }

  // ---- the store object ----

  /** The store: one mutable object whose actions overwrite its fields in place. */
  class AppStore {
    var isDarkMode: bool
    var notificationsEnabled: bool
    var isFirstLaunch: bool
    var isLoading: bool
    var error: Option<string>

    /** The current snapshot. */
    function State(): AppState
      reads this
    {
      AppState(isDarkMode, notificationsEnabled, isFirstLaunch, isLoading, error)
    }

    constructor ()
      ensures State() == Initial
    {
      isDarkMode := false;
      notificationsEnabled := true;
      isFirstLaunch := true;
      isLoading := false;
      error := None;
    }

    method ToggleTheme()
      modifies this
      ensures State() == Step(old(State()), Action.ToggleTheme)
    {
      isDarkMode := !isDarkMode;
    }

    method ToggleNotifications()
      modifies this
      ensures State() == Step(old(State()), Action.ToggleNotifications)
    {
      notificationsEnabled := !notificationsEnabled;
    }

    method SetFirstLaunch(value: bool)
      modifies this
      ensures State() == Step(old(State()), Action.SetFirstLaunch(value))
    {
      isFirstLaunch := value;
    }

    method SetLoading(loading: bool)
      modifies this
      ensures State() == Step(old(State()), Action.SetLoading(loading))
    {
      isLoading := loading;
    }

    method SetError(message: Option<string>)
      modifies this
      ensures State() == Step(old(State()), Action.SetError(message))
    {
      error := message;
    }

    method ClearError()
      modifies this
      ensures State() == Step(old(State()), Action.ClearError)
    {
      error := None;
    }
  }
}
