/** The databases plugin's state and its four reducers (src/plugins/databases/index.js).
    Each reducer returns a new state; the database map is a JavaScript object, so its
    keys keep their insertion order. */
module Databases {
  import opened Wrappers
  import OrderedMap

  datatype ViewMode = DataView | StructureView

  /** `selectedDatabase` and `selectedDatabaseTable` may be null (or undefined), modelled
      as `None`; each database maps to its table names. */
  datatype DatabasesState = DatabasesState(selectedDatabase: Option<string>, selectedDatabaseTable: Option<string>,
                                           databases: OrderedMap.OMap<seq<string>>, viewMode: ViewMode)

  /** The plugin's initial state. */
  const InitialState := DatabasesState(None, None, [], DataView)

  /** `state.selectedDatabase` as `||` sees it: null and "" are falsy. */
  predicate Chosen(s: Option<string>) {
    s.Some? && s.value != ""
  }

  /** `tables[0]`: undefined for no tables. */
  function FirstTable(tables: seq<string>): (r: Option<string>)
    ensures r.Some? <==> |tables| > 0
    ensures r.Some? ==> r.value == tables[0]
  {
    if |tables| > 0 then Some(tables[0]) else None
  }

  /** `UpdateDatabases`: the new databases merged over the old ones; the selected
      database kept when set, otherwise the first database; its first table selected.
      Looking up the tables of a database the map lacks throws (an empty map, or a kept
      selection that is not in it). */
  function UpdateDatabases(state: DatabasesState, updates: OrderedMap.OMap<seq<string>>): (r: Result<DatabasesState, ()>)
    ensures var databases := OrderedMap.Assign(state.databases, updates);
      var selected := if Chosen(state.selectedDatabase) then state.selectedDatabase
                      else if |databases| > 0 then Some(databases[0].0) else None;
      (r.Err? <==> selected.None? || !OrderedMap.HasKey(databases, selected.value))
      && (r.Ok? ==>
            r.value.databases == databases
            && r.value.selectedDatabase == selected
            && r.value.selectedDatabaseTable == FirstTable(OrderedMap.Get(databases, selected.value).value)
            && r.value.viewMode == state.viewMode)
  {
    var databases := OrderedMap.Assign(state.databases, updates);
    var selected := if Chosen(state.selectedDatabase) then state.selectedDatabase
                    else if |databases| > 0 then Some(databases[0].0) else None;
    if selected.None? then Err(())
    else match OrderedMap.Get(databases, selected.value)
      case None => Err(())
      case Some(tables) =>
        Ok(state.(databases := databases, selectedDatabase := selected,
                  selectedDatabaseTable := FirstTable(tables)))
  }

  /** `UpdateSelectedDatabase`: the database chosen, no table selected. */
  function UpdateSelectedDatabase(state: DatabasesState, database: string): (r: DatabasesState)
    ensures r.selectedDatabase == Some(database) && r.selectedDatabaseTable.None?
    ensures r.databases == state.databases && r.viewMode == state.viewMode
  {
    state.(selectedDatabase := Some(database), selectedDatabaseTable := None)
  }

  /** `UpdateSelectedDatabaseTable`: only the table changes. */
  function UpdateSelectedDatabaseTable(state: DatabasesState, table: string): (r: DatabasesState)
    ensures r.selectedDatabaseTable == Some(table)
    ensures r.selectedDatabase == state.selectedDatabase && r.databases == state.databases
    ensures r.viewMode == state.viewMode
  {
    state.(selectedDatabaseTable := Some(table))
  }

  /** `UpdateViewMode`: only the view mode changes. */
  function UpdateViewMode(state: DatabasesState, viewMode: ViewMode): (r: DatabasesState)
    ensures r.viewMode == viewMode
    ensures r.selectedDatabase == state.selectedDatabase && r.selectedDatabaseTable == state.selectedDatabaseTable
    ensures r.databases == state.databases
  {
    state.(viewMode := viewMode)
  }

  /** After a successful update the selection is consistent: the selected database is in
      the map, and the selected table, if any, is one of its tables. On a name clash the
      new entry is the one stored. */
  lemma UpdateSelectsPresentTable(state: DatabasesState, updates: OrderedMap.OMap<seq<string>>, name: string)
    requires UpdateDatabases(state, updates).Ok?
    ensures var s := UpdateDatabases(state, updates).value;
      s.selectedDatabase.Some?
      && OrderedMap.HasKey(s.databases, s.selectedDatabase.value)
      && (s.selectedDatabaseTable.Some? ==>
            s.selectedDatabaseTable.value in OrderedMap.Get(s.databases, s.selectedDatabase.value).value)
      && (OrderedMap.HasKey(updates, name) ==> OrderedMap.Get(s.databases, name) == OrderedMap.Get(updates, name))
      && (!OrderedMap.HasKey(updates, name) ==> OrderedMap.Get(s.databases, name) == OrderedMap.Get(state.databases, name))
  {
  }

  /** The first update of the initial state with no databases throws. */
  lemma EmptyFirstUpdateThrows()
    ensures UpdateDatabases(InitialState, []).Err?
  {
  }

  /** A database chosen by the user survives later updates that list it: it stays
      selected, and its first table is selected. */
  lemma ChoiceSurvivesUpdate(state: DatabasesState, database: string, tables: seq<string>,
                             updates: OrderedMap.OMap<seq<string>>)
    requires database != ""
    requires OrderedMap.Get(updates, database) == Some(tables)
    ensures var r := UpdateDatabases(UpdateSelectedDatabase(state, database), updates);
      r.Ok? && r.value.selectedDatabase == Some(database) && r.value.selectedDatabaseTable == FirstTable(tables)
  {
  }

  /** Updating with an empty map keeps the databases and, when a database is already
      selected and present, the whole selection except that its first table is chosen. */
  lemma EmptyUpdateKeepsDatabases(state: DatabasesState)
    requires Chosen(state.selectedDatabase) && OrderedMap.HasKey(state.databases, state.selectedDatabase.value)
    ensures var r := UpdateDatabases(state, []);
      r.Ok? && r.value.databases == state.databases && r.value.selectedDatabase == state.selectedDatabase
  {
  }
}
