// The per-user conversation state of bot/states.py.
module States {
  import opened Wrappers
  import opened PyStr

  datatype UserState = Normal | WaitingPhone | WaitingCode | Waiting2fa | WaitingRestartConfirm

  datatype LoginState = Idle | PhoneSent | CodeSent | Need2fa | Completed | Failed

  /** `user_states.get(user_id, NORMAL)`. */
  function StateOf(states: map<int, UserState>, userId: int): (r: UserState)
    ensures userId !in states ==> r == Normal
    ensures userId in states ==> r == states[userId]
  {
    if userId in states then states[userId] else Normal
  }

  /** `user_data.get(user_id, {})`. */
  function DataOf<D>(data: map<int, map<String, D>>, userId: int): (r: map<String, D>)
    ensures userId !in data ==> r == map[]
    ensures userId in data ==> r == data[userId]
  {
    if userId in data then data[userId] else map[]
  }

  /**
   * The data stored for a user after `set_user_state` with `update`: a
   * non-empty update is merged into the stored dictionary, its keys winning;
   * `None` or an empty update leaves the stored data as it is.
   */
  function MergedData<D>(stored: map<String, D>, update: Option<map<String, D>>): (r: map<String, D>)
    ensures update.None? || |update.value| == 0 ==> r == stored
    ensures update.Some? ==> forall k :: k in update.value ==> k in r && r[k] == update.value[k]
    ensures forall k :: k in stored && (update.None? || k !in update.value) ==> k in r && r[k] == stored[k]
    ensures forall k :: k in r ==> k in stored || (update.Some? && k in update.value)
  {
    if update.None? || |update.value| == 0 then stored else stored + update.value
  }

  class StateManager<D> {
    var userStates: map<int, UserState>
    var userData: map<int, map<String, D>>

    constructor ()
      ensures userStates == map[] && userData == map[]
    {
      userStates := map[];
      userData := map[];
    }

    /** `set_user_state`: overwrites the state; merges non-empty data; touches no other user. */
    method SetUserState(userId: int, state: UserState, data: Option<map<String, D>>)
      modifies this
      ensures userStates == old(userStates)[userId := state]
      ensures data.Some? && |data.value| > 0 ==>
        userData == old(userData)[userId := MergedData(DataOf(old(userData), userId), data)]
      ensures data.None? || |data.value| == 0 ==> userData == old(userData)
      ensures GetUserState(userId) == state
      ensures forall u :: u != userId ==> GetUserState(u) == old(GetUserState(u)) && GetUserData(u) == old(GetUserData(u))
    {
      userStates := userStates[userId := state];
      if data.Some? && |data.value| > 0 {
        var stored := if userId in userData then userData[userId] else map[];
        userData := userData[userId := stored + data.value];
      }
    }

    function GetUserState(userId: int): UserState
      reads this
    {
      StateOf(userStates, userId)
    }

    function GetUserData(userId: int): map<String, D>
      reads this
    {
      DataOf(userData, userId)
    }

    /** `clear_user_state`: removes both entries; afterwards the user reads as NORMAL with no data. */
    method ClearUserState(userId: int)
      modifies this
      ensures userStates == old(userStates) - {userId} && userData == old(userData) - {userId}
      ensures GetUserState(userId) == Normal && GetUserData(userId) == map[]
      ensures forall u :: u != userId ==> GetUserState(u) == old(GetUserState(u)) && GetUserData(u) == old(GetUserData(u))
    {
      userStates := userStates - {userId};
      userData := userData - {userId};
    }

    /** `is_user_in_process`. */
    predicate IsUserInProcess(userId: int)
      reads this
    {
      GetUserState(userId) != Normal
    }

    /** A user is in a process exactly when a state other than NORMAL is stored for them. */
    lemma InProcessIffStored(userId: int)
      ensures IsUserInProcess(userId) <==> userId in userStates && userStates[userId] != Normal
    {
    }
  }

  /** Clearing twice is the same as clearing once. */
  lemma ClearIdempotent<D>(states: map<int, UserState>, data: map<int, map<String, D>>, userId: int)
    ensures (states - {userId}) - {userId} == states - {userId}
    ensures (data - {userId}) - {userId} == data - {userId}
    ensures StateOf(states - {userId}, userId) == Normal
  {
  }

  /** Merging the same update twice is the same as merging it once. */
  lemma MergeIdempotent<D>(stored: map<String, D>, update: Option<map<String, D>>)
    ensures MergedData(MergedData(stored, update), update) == MergedData(stored, update)
  {
  }
}
