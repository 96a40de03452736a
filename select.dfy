/** `JuwelHelialuxProfileSelect` of `select.py`: the profile chooser. It reads
    its options and current option from the coordinator's snapshot, sends
    the protocol name of a chosen profile through the undefined `set_profile`
    call (whose answer is an input), and on success writes the choice into
    the snapshot. */
module ProfileSelect {
  import opened Wrappers
  import opened PyValues
  import opened Coordinator

  /** `options`: `available_profiles`, defaulting to []. */
  function OptionsOf(data: map<string, Value>): (r: Value)
    ensures "available_profiles" !in data ==> r == VList([])
    ensures "available_profiles" in data ==> r == data["available_profiles"]
  {
    Get(data, "available_profiles", VList([]))
  }

  /** `current_option`: `current_profile`, defaulting to "offline". */
  function CurrentOptionOf(data: map<string, Value>): (r: Value)
    ensures "current_profile" !in data ==> r == VStr("offline")
    ensures "current_profile" in data ==> r == data["current_profile"]
  {
    Get(data, "current_profile", VStr("offline"))
  }

  /** What `async_select_option(option)` does before `set_profile`: Success(None)
      when it returns early, Success(Some(name)) when it calls `set_profile`
      with the protocol name `name`, and the exception it raises otherwise
      (IndexError when the protocol list is shorter is not caught). */
  function ProfileCall(data: map<string, Value>, option: string): (r: Result<Option<Value>, Error>)
    ensures option == "" ==> r == Success(None)
    ensures option != "" && Contains(OptionsOf(data), option) == Success(false) ==> r == Success(None)
    ensures (&& option != "" && (OptionsOf(data).VList? || OptionsOf(data).VStr?)
             && (!Truthy(OptionsOf(data)) || !Truthy(Get(data, "full_profile_names", VList([])))))
            ==> r == Success(None)
    ensures (OptionsOf(data).VInt? || OptionsOf(data).VBool?) && option != "" ==> r == Failure(TypeError)
  {
    if option == "" then Success(None)
    else
      var present :- Contains(OptionsOf(data), option);
      if !present then Success(None)
      else
        var clean := Get(data, "available_profiles", VList([]));
        var full := Get(data, "full_profile_names", VList([]));
        if !Truthy(clean) || !Truthy(full) then Success(None)
        else
          var index :- IndexOf(clean, option);
          var name :- GetItem(full, index);
          Success(Some(name))
  }

  /** The name sent is the protocol name at the first index of the option
      among the display names. */
  lemma ProfileCallSendsFullName(data: map<string, Value>, option: string)
    requires "available_profiles" in data && data["available_profiles"].VList?
    requires "full_profile_names" in data && data["full_profile_names"].VList?
    requires ProfileCall(data, option).Success? && ProfileCall(data, option).value.Some?
    ensures var clean := data["available_profiles"].items;
      var full := data["full_profile_names"].items;
      exists i :: 0 <= i < |clean| && i < |full|
        && clean[i] == VStr(option) && (forall j :: 0 <= j < i ==> clean[j] != VStr(option))
        && ProfileCall(data, option).value.value == full[i]
  {
    var i := IndexOf(data["available_profiles"], option).value;
    assert data["full_profile_names"].items[i] == ProfileCall(data, option).value.value;
  }

  /** A display name that is listed among two non-empty lists reaches the
      device: the call is made exactly when the protocol list is long enough. */
  lemma ProfileCallListed(data: map<string, Value>, option: string)
    requires "available_profiles" in data && data["available_profiles"].VList?
    requires "full_profile_names" in data && data["full_profile_names"].VList?
    requires data["full_profile_names"].items != []
    requires option != "" && VStr(option) in data["available_profiles"].items
    ensures ProfileCall(data, option).Success? <==>
      FirstIndex(data["available_profiles"].items, VStr(option)).value < |data["full_profile_names"].items|
    ensures ProfileCall(data, option).Failure? ==> ProfileCall(data, option).error == IndexError
  {
    assert OptionsOf(data) == data["available_profiles"];
  }

  /** The `except ValueError` branch is dead: `options` reads the same list,
      so an option that passed the membership test is always found. */
  lemma ProfileCallNoValueError(data: map<string, Value>, option: string)
    ensures ProfileCall(data, option) != Failure(ValueError)
  {
    if option != "" && Contains(OptionsOf(data), option) == Success(true) {
      ContainsThenIndexOf(OptionsOf(data), option);
    }
  }

  class JuwelHelialuxProfileSelect {
    const coordinator: JuwelHelialuxCoordinator
    const uniqueId: string
    /** `_attr_options`. */
    var attrOptions: Value
    /** `_attr_current_option`, never set by the constructor. */
    var attrCurrentOption: Option<Value>
    /** The arguments of every `set_profile` call, in order. */
    var calls: seq<(Value, string)>

    constructor(coordinator: JuwelHelialuxCoordinator, tankName: string)
      ensures this.coordinator == coordinator && uniqueId == tankName + "_profile_select"
      ensures attrOptions == VList([]) && attrCurrentOption == None && calls == []
    {
      this.coordinator := coordinator;
      uniqueId := tankName + "_profile_select";
      attrOptions := VList([]);
      attrCurrentOption := None;
      calls := [];
    }

    function Options(): Value
      reads coordinator
    {
      OptionsOf(coordinator.data)
    }

    function CurrentOption(): Value
      reads coordinator
    {
      CurrentOptionOf(coordinator.data)
    }

    /** `async_select_option(option)`, with `success` the answer of
        `set_profile`. Only a successful call changes the snapshot, and then
        only its `current_profile`. */
    method SelectOption(option: string, success: bool) returns (r: Result<Option<Value>, Error>)
      modifies this, coordinator
      ensures r == ProfileCall(old(coordinator.data), option)
      ensures calls == old(calls) + (if r.Success? && r.value.Some? then [(r.value.value, option)] else [])
      ensures coordinator.data ==
        if r.Success? && r.value.Some? && success then old(coordinator.data)["current_profile" := VStr(option)]
        else old(coordinator.data)
      ensures coordinator.deviceInfo == old(coordinator.deviceInfo)
      ensures attrOptions == old(attrOptions) && attrCurrentOption == old(attrCurrentOption)
    {
      if option == "" {
        return Success(None);
      }
      var present := Contains(Options(), option);
      if present.Failure? {
        return Failure(present.error);
      }
      if !present.value {
        return Success(None);
      }
      var clean := Get(coordinator.data, "available_profiles", VList([]));
      var full := Get(coordinator.data, "full_profile_names", VList([]));
      if !Truthy(clean) || !Truthy(full) {
        return Success(None);
      }
      // The membership test read the same list, so `index` cannot raise and
      // the ValueError handler is never entered.
      ContainsThenIndexOf(clean, option);
      var index := IndexOf(clean, option).value;
      var name := GetItem(full, index);
      if name.Failure? {
        return Failure(name.error);
      }
      calls := calls + [(name.value, option)];
      if success {
        coordinator.data := coordinator.data["current_profile" := VStr(option)];
      }
      r := Success(Some(name.value));
    }

    /** `_update_options`: the stored options become the snapshot's list;
        they are assigned only when they differ, which leaves the same value. */
    method UpdateOptions()
      modifies this
      ensures attrOptions == OptionsOf(coordinator.data)
      ensures attrCurrentOption == old(attrCurrentOption) && calls == old(calls)
    {
      var newOptions := Get(coordinator.data, "available_profiles", VList([]));
      if newOptions != attrOptions {
        attrOptions := newOptions;
      }
    }

    /** `_handle_coordinator_update`: its profile comparison reads the same
        key as `current_option`, so it never differs and only the options
        are refreshed. */
    method HandleCoordinatorUpdate()
      modifies this
      ensures attrOptions == OptionsOf(coordinator.data)
      ensures attrCurrentOption == old(attrCurrentOption) && calls == old(calls)
    {
      var newProfile := Get(coordinator.data, "current_profile", VStr("offline"));
      // The comparison with `current_option` reads the same key, so the
      // branch that would set the current option is never taken.
      assert newProfile == CurrentOption();
      UpdateOptions();
    }
  }
}
