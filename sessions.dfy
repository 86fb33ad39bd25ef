/**
 * The `user_data` map of bot.py: one record per Telegram user, holding the
 * last shared location and whether two-hourly notifications are on.
 */
module Sessions {
  import opened Wrappers
  import opened Cache

  /** `str(message.from_user.id)`; in private chats also the chat id. */
  type UserId = int

  datatype Session = Session(location: Option<Coord>, notifications: bool)

  type Users = map<UserId, Session>

  /** The record /start creates: no location, notifications off. */
  const NewSession: Session := Session(None, false)

  /** send_welcome: a record for an unknown user; a known user's record is left as it is. */
  function Welcome(users: Users, u: UserId): (r: Users)
    ensures r.Keys == users.Keys + {u}
    ensures u in users ==> r == users
    ensures u !in users ==> r[u] == NewSession
    ensures forall v | v in users :: r[v] == users[v]
  {
    if u in users then users else users[u := NewSession]
  }

  /** A second /start changes nothing. */
  lemma WelcomeIdempotent(users: Users, u: UserId)
    ensures Welcome(Welcome(users, u), u) == Welcome(users, u)
  {
  }

  /**
   * `user_data[user_id]['location'] = ...` as written: the record is indexed
   * directly, so an unknown user raises KeyError (None here).
   */
  function SetLocationAsWritten(users: Users, u: UserId, at: Coord): (r: Option<Users>)
    ensures r.Some? <==> u in users
    ensures r.Some? ==> r.value == users[u := users[u].(location := Some(at))]
  {
    if u in users then Some(users[u := users[u].(location := Some(at))]) else None
  }

  /** `user_data[user_id]['notifications'] = on` as written; KeyError (None) for an unknown user. */
  function SetNotificationsAsWritten(users: Users, u: UserId, on: bool): (r: Option<Users>)
    ensures r.Some? <==> u in users
    ensures r.Some? ==> r.value == users[u := users[u].(notifications := on)]
  {
    if u in users then Some(users[u := users[u].(notifications := on)]) else None
  }

  /** A user's record, or the default one for a user without a record. */
  function RecordOf(users: Users, u: UserId): Session {
    if u in users then users[u] else NewSession
  }

  /** `user_data.get(user_id, {}).get('notifications', False)`: an unknown user has them off. */
  predicate NotificationsOn(users: Users, u: UserId) {
    u in users && users[u].notifications
  }

  /** `user_id in user_data and user_data[user_id].get('location')` */
  predicate HasLocation(users: Users, u: UserId) {
    u in users && users[u].location.Some?
  }

  /** The location share, for every user: an unknown user gets a default record first. */
  function SetLocation(users: Users, u: UserId, at: Coord): (r: Users)
    ensures r.Keys == users.Keys + {u}
    ensures r[u].location == Some(at) && r[u].notifications == NotificationsOn(users, u)
    ensures forall v | v in users && v != u :: r[v] == users[v]
  {
    users[u := RecordOf(users, u).(location := Some(at))]
  }

  /** The notification toggle, for every user: an unknown user gets a default record first. */
  function SetNotifications(users: Users, u: UserId, on: bool): (r: Users)
    ensures r.Keys == users.Keys + {u}
    ensures r[u].notifications == on && r[u].location == RecordOf(users, u).location
    ensures forall v | v in users && v != u :: r[v] == users[v]
  {
    users[u := RecordOf(users, u).(notifications := on)]
  }

  /** Where the source does not raise, the corrected updates are the ones it performs. */
  lemma CorrectedUpdatesAgree(users: Users, u: UserId, at: Coord, on: bool)
    requires u in users
    ensures SetLocationAsWritten(users, u, at) == Some(SetLocation(users, u, at))
    ensures SetNotificationsAsWritten(users, u, on) == Some(SetNotifications(users, u, on))
  {
  }

  /**
   * A user unknown to `user_data` (never sent /start, or lost with the
   * data file) is shown the notification menu as "off", yet pressing its
   * button or sharing a location raises.
   */
  lemma UnknownUserRaises(u: UserId, at: Coord)
    ensures !NotificationsOn(map[], u)
    ensures SetNotificationsAsWritten(map[], u, true) == None
    ensures SetLocationAsWritten(map[], u, at) == None
  {
  }

  /** The users a notification cycle writes to: notifications on and a location stored. */
  function Subscribers(users: Users): (s: set<UserId>)
    ensures forall u :: u in s <==> NotificationsOn(users, u) && HasLocation(users, u)
  {
    set u | u in users && users[u].notifications && users[u].location.Some?
  }

  /** Turning notifications on subscribes the user exactly when a location is stored. */
  lemma SubscribeAfterToggle(users: Users, u: UserId, on: bool)
    ensures Subscribers(SetNotifications(users, u, on)) ==
              if on && HasLocation(users, u) then Subscribers(users) + {u} else Subscribers(users) - {u}
  {
    var r := SetNotifications(users, u, on);
    assert forall v | v != u :: (v in Subscribers(r) <==> v in Subscribers(users));
  }

  /** Sharing a location subscribes the user exactly when notifications are on. */
  lemma SubscribeAfterLocation(users: Users, u: UserId, at: Coord)
    ensures Subscribers(SetLocation(users, u, at)) ==
              if NotificationsOn(users, u) then Subscribers(users) + {u} else Subscribers(users)
  {
    var r := SetLocation(users, u, at);
    assert forall v | v != u :: (v in Subscribers(r) <==> v in Subscribers(users));
  }

  /** /start never changes who is subscribed. */
  lemma WelcomeKeepsSubscribers(users: Users, u: UserId)
    ensures Subscribers(Welcome(users, u)) == Subscribers(users)
  {
    var r := Welcome(users, u);
    assert forall v :: (v in Subscribers(r) <==> v in Subscribers(users));
  }
}
