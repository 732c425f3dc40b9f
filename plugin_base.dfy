/** The static side of a desktop plugin class (src/plugin.js): its identity, how it prints
    itself, and how `dispatchAction` routes an action to the reducer named by its type. */
module Plugin {
  import opened Wrappers
  import opened Json
  import Strings

  /** A plugin class: its constructor name and its static `id`, `title` and `icon`. */
  datatype PluginClass = PluginClass(name: string, id: string, title: string, icon: string)

  /** A class that does not override the statics of `FlipperBasePlugin`. */
  function DefaultClass(name: string): (c: PluginClass)
    ensures c.name == name && c.id == "Unknown" && c.title == "Unknown" && c.icon == "apps"
  {
    PluginClass(name, "Unknown", "Unknown", "apps")
  }

  /** `toJSON()`: `<ClassName#Title>`. */
  function ToJSON(c: PluginClass): (r: string)
    ensures |r| == |c.name| + |c.title| + 3
    ensures r[0] == '<' && r[|r| - 1] == '>' && r[|c.name| + 1] == '#'
  {
    "<" + c.name + "#" + c.title + ">"
  }

  /** A class name holds no `#`, so the printed form gives back the name and the title. */
  lemma ToJSONInjective(c1: PluginClass, c2: PluginClass)
    requires '#' !in c1.name && '#' !in c2.name
    requires ToJSON(c1) == ToJSON(c2)
    ensures c1.name == c2.name && c1.title == c2.title
  {
    var r := ToJSON(c1);
    assert r[1..|r| - 1] == c1.name + "#" + c1.title;
    assert ToJSON(c2)[1..|r| - 1] == c2.name + "#" + c2.title;
    Strings.SplitAtFirstSeparator(c1.name, c1.title, c2.name, c2.title, '#');
  }

  /** A plugin's (component) state object. */
  type State = map<string, Value>

  /** An entry of the `reducers` object: a function from the state and the action to a
      partial state, or some other value. */
  datatype Reducer =
    | ReducerFn(apply: (State, Action) -> State)
    | NotAFunction(value: Value)

  /** An action `{type, ...data}`. */
  datatype Action = Action(actionType: string, data: Value)

  datatype DispatchError = ReferenceError(message: string) | TypeError(message: string)

  /** `dispatchAction(action)`: an action type with no truthy reducer entry is a
      ReferenceError, a truthy entry that is not a function a TypeError; otherwise the
      state becomes the old state with the reducer's partial state set over it
      (`setState` merges shallowly). */
  function DispatchAction(reducers: map<string, Reducer>, state: State, action: Action): (r: Result<State, DispatchError>)
    ensures r.Err? && r.error.ReferenceError? <==>
      action.actionType !in reducers
      || (reducers[action.actionType].NotAFunction? && !Truthy(reducers[action.actionType].value))
    ensures r.Err? && r.error.ReferenceError? ==> r.error.message == "Unknown action " + action.actionType
    ensures r.Err? && r.error.TypeError? <==>
      action.actionType in reducers && reducers[action.actionType].NotAFunction?
      && Truthy(reducers[action.actionType].value)
    ensures r.Err? && r.error.TypeError? ==>
      r.error.message == "Reducer " + action.actionType + " isn't a function"
    ensures r.Ok? <==> action.actionType in reducers && reducers[action.actionType].ReducerFn?
    ensures r.Ok? ==>
      var partial := reducers[action.actionType].apply(state, action);
      r.value.Keys == state.Keys + partial.Keys
      && (forall k :: k in partial ==> r.value[k] == partial[k])
      && (forall k :: k in state && k !in partial ==> r.value[k] == state[k])
  {
    if action.actionType !in reducers then
      Err(ReferenceError("Unknown action " + action.actionType))
    else
      match reducers[action.actionType]
      case NotAFunction(v) =>
        if !Truthy(v) then Err(ReferenceError("Unknown action " + action.actionType))
        else Err(TypeError("Reducer " + action.actionType + " isn't a function"))
      case ReducerFn(f) => Ok(Spread(state, f(state, action)))
  }

  /** A reducer that returns the state it was given leaves the state as it was. */
  lemma DispatchIdentityReducer(reducers: map<string, Reducer>, state: State, action: Action)
    requires action.actionType in reducers && reducers[action.actionType].ReducerFn?
    requires reducers[action.actionType].apply(state, action) == state
    ensures DispatchAction(reducers, state, action) == Ok(state)
  {
    assert Spread(state, state) == state;
  }
}
