/** The captcha gate of the Captcher plugin (captcher/core.py): the guild
    settings, the code a joining member must type back, the log levels,
    the permission check and the channel overwrites it builds, and the
    specification of one challenge as an outcome plus the trace of effects
    it has on Discord. */
module CaptcherCore {
  import opened Wrappers
  import opened Strings

  /** Discord snowflakes are never zero, so a stored id is always truthy. */
  type Id = n: nat | n > 0 witness 1
  type UserId = Id
  type RoleId = Id
  type ChannelId = Id

  /** The per-guild settings registered at captcher/core.py:31-37. */
  datatype GuildConfig = GuildConfig(
    giverole: Option<RoleId>,
    verificationChannel: Option<ChannelId>,
    active: bool,
    logsChannel: Option<ChannelId>,
    tempRole: Option<RoleId>)

  const DefaultConfig := GuildConfig(None, None, false, None, None)

  // ---------------------------------------------------------------------
  // The code

  /** `_generate_code_and_image`, code part: `str(randint(10000, 99999))`,
      the random draw being given. */
  function GenerateCode(draw: nat): (code: string)
    requires 10000 <= draw <= 99999
    ensures |code| == 5 && AllDigits(code) && code[0] != '0'
    ensures DigitsValue(code) == draw
  {
    var s4 := NatToString(draw / 10);
    var s3 := NatToString(draw / 100);
    var s2 := NatToString(draw / 1000);
    assert |NatToString(draw / 10000)| == 1;
    assert |s2| == 2 && |s3| == 3 && |s4| == 4;
    NatToStringRoundTrip(draw);
    NatToString(draw)
  }

  /** Two draws give the same code only if they are equal, so the code
      determines the draw. */
  lemma GenerateCodeInjective(a: nat, b: nat)
    requires 10000 <= a <= 99999 && 10000 <= b <= 99999
    ensures GenerateCode(a) == GenerateCode(b) <==> a == b
  {
    NatToStringInjective(a, b);
  }

  // ---------------------------------------------------------------------
  // Log levels

  /** The keys of `level_list` in `_report_log`. */
  datatype Level = Started | Error | Completed | Failed | Unknow

  function LevelName(l: Level): string {
    match l
    case Started => "started"
    case Error => "error"
    case Completed => "completed"
    case Failed => "failed"
    case Unknow => "unknow"
  }

  /** `_report_log`'s level lookup (captcher/core.py:194-206): an unknown
      level string falls back to "unknow". */
  function LevelOf(s: string): (l: Level)
    ensures l != Unknow ==> LevelName(l) == s
  {
    if s == "started" then Started
    else if s == "error" then Error
    else if s == "completed" then Completed
    else if s == "failed" then Failed
    else Unknow
  }

  /** Every level's name looks up that level, and a string that is none of
      the names looks up "unknow". */
  lemma LevelRoundTrip(l: Level, s: string)
    ensures LevelOf(LevelName(l)) == l
    ensures (forall k: Level :: LevelName(k) != s) ==> LevelOf(s) == Unknow
  {
    if LevelOf(s) != Unknow {
      assert LevelName(LevelOf(s)) == s;
    }
  }

  // ---------------------------------------------------------------------
  // Permissions

  /** The bot's permissions in a channel, as `_permissions_checker` reads
      them. */
  datatype Perms = Perms(readMessages: bool, manageMessages: bool, manageRoles: bool)

  datatype Permission = ReadMessages | ManageMessages | ManageRoles

  /** The "Missing permission(s)" text: plural header or not, then one line
      per missing permission. */
  datatype MissingReport = MissingReport(plural: bool, lines: seq<Permission>)

  /** The accumulation in `_permissions_checker` (captcher/core.py:247-282):
      one line and one issue per missing permission, in a fixed order. */
  method InspectPermissions(p: Perms) returns (passed: bool, final: Option<MissingReport>)
    ensures passed <==> p.readMessages && p.manageMessages && p.manageRoles
    ensures final.None? <==> passed
    ensures final.Some? ==> (final.value.plural <==> |final.value.lines| > 1)
    ensures final.Some? ==> forall q :: q in final.value.lines <==>
      (q == ReadMessages && !p.readMessages) || (q == ManageMessages && !p.manageMessages) || (q == ManageRoles && !p.manageRoles)
    ensures final.Some? ==> |final.value.lines| <= 3 && forall i, j :: 0 <= i < j < |final.value.lines| ==> final.value.lines[i] != final.value.lines[j]
  {
    var message: seq<Permission> := [];
    var issues := 0;
    passed := true;
    if !p.readMessages {
      message := message + [ReadMessages];
      issues := issues + 1;
      passed := false;
    }
    if !p.manageMessages {
      message := message + [ManageMessages];
      issues := issues + 1;
      passed := false;
    }
    if !p.manageRoles {
      message := message + [ManageRoles];
      issues := issues + 1;
      passed := false;
    }
    if message == [] {
      final := None;
    } else {
      final := Some(MissingReport(issues > 1, message));
    }
  }

  // ---------------------------------------------------------------------
  // Channel overwrites

  /** The key of a channel overwrite: a role or a member. */
  datatype Target = RoleTarget(role: RoleId) | MemberTarget(member: UserId)

  /** A `discord.PermissionOverwrite` restricted to the two flags the plugin
      sets; `None` leaves the flag inherited. */
  datatype Overwrite = Overwrite(readMessages: Option<bool>, sendMessages: Option<bool>)

  /** `_mute_or_unmute_user` (captcher/core.py:356-361): the channel's
      overwrites with only the member's entry replaced. */
  function MuteOrUnmute(overwrites: map<Target, Overwrite>, user: UserId, option: bool): (r: map<Target, Overwrite>)
    ensures MemberTarget(user) in r && r[MemberTarget(user)] == Overwrite(None, Some(option))
    ensures forall t :: t != MemberTarget(user) ==> (t in r <==> t in overwrites)
    ensures forall t :: t in overwrites && t != MemberTarget(user) ==> r[t] == overwrites[t]
  {
    overwrites[MemberTarget(user) := Overwrite(None, Some(option))]
  }

  /** Unmuting after a mute built from the same overwrites gives the same
      map as unmuting directly: the mute leaves no trace. */
  lemma UnmuteAfterMute(overwrites: map<Target, Overwrite>, user: UserId)
    ensures MuteOrUnmute(MuteOrUnmute(overwrites, user, false), user, true) == MuteOrUnmute(overwrites, user, true)
  {
  }

  /** `_make_staff_overwrites` (captcher/core.py:340-354): staff roles may
      read but not write, everyone else may not read, the bot may do both. */
  method MakeStaffOverwrites(mods: seq<RoleId>, admins: seq<RoleId>, me: UserId, default: RoleId) returns (data: map<Target, Overwrite>)
    ensures forall t :: t in data <==> t == RoleTarget(default) || t == MemberTarget(me) || (t.RoleTarget? && (t.role in admins || t.role in mods))
    ensures data[RoleTarget(default)] == Overwrite(Some(false), None)
    ensures data[MemberTarget(me)] == Overwrite(Some(true), Some(true))
    ensures forall r :: (r in admins || r in mods) && r != default ==> data[RoleTarget(r)] == Overwrite(Some(true), Some(false))
  {
    data := map[];
    for i := 0 to |admins|
      invariant forall t :: t in data <==> t.RoleTarget? && t.role in admins[..i]
      invariant forall t :: t in data ==> data[t] == Overwrite(Some(true), Some(false))
    {
      assert admins[..i + 1] == admins[..i] + [admins[i]];
      data := data[RoleTarget(admins[i]) := Overwrite(Some(true), Some(false))];
    }
    assert admins[..|admins|] == admins;
    for i := 0 to |mods|
      invariant forall t :: t in data <==> t.RoleTarget? && (t.role in admins || t.role in mods[..i])
      invariant forall t :: t in data ==> data[t] == Overwrite(Some(true), Some(false))
    {
      assert mods[..i + 1] == mods[..i] + [mods[i]];
      data := data[RoleTarget(mods[i]) := Overwrite(Some(true), Some(false))];
    }
    assert mods[..|mods|] == mods;
    data := data[RoleTarget(default) := Overwrite(Some(false), None)];
    data := data[MemberTarget(me) := Overwrite(Some(true), Some(true))];
  }

  // ---------------------------------------------------------------------
  // Roles kept across a manual challenge

  /** The roles `_role_keeper` and `_roles_remover` go through,
      `member.roles[-1:0:-1]`: every role but the first (`@everyone`), last
      first. */
  function KeptRoles(roles: seq<RoleId>): (r: seq<RoleId>)
    ensures |roles| < 2 ==> r == []
    ensures |roles| >= 2 ==> |r| == |roles| - 1
    ensures forall i :: 0 <= i < |r| ==> r[i] == roles[|roles| - 1 - i]
    decreases |roles|
  {
    if |roles| < 2 then [] else [roles[|roles| - 1]] + KeptRoles(roles[..|roles| - 1])
  }

  /** One `RoleRemoved` effect per role, in the order given. */
  function RemovalsOf(ids: seq<RoleId>): seq<Effect> {
    seq(|ids|, i requires 0 <= i < |ids| => RoleRemoved(ids[i]))
  }

  /** `_role_keeper` (captcher/core.py:287-293): the ids of the member's
      roles but the first (`@everyone`), last first. With no such role
      `lister` is never bound and the function raises, shown here as
      `Err`. */
  method RoleKeeper(roles: seq<RoleId>) returns (r: Result<seq<RoleId>, ()>)
    ensures r.Ok? <==> |roles| >= 2
    ensures r.Ok? ==> r.value == KeptRoles(roles)
    ensures r.Ok? ==> |r.value| == |roles| - 1 && forall i :: 0 <= i < |r.value| ==> r.value[i] == roles[|roles| - 1 - i]
    ensures r.Ok? ==> forall x :: x in r.value <==> x in roles[1..]
  {
    if |roles| < 2 {
      return Err(());
    }
    var kept := [];
    var i := |roles| - 1;
    while i > 0
      invariant 0 <= i <= |roles| - 1
      invariant |kept| == |roles| - 1 - i
      invariant forall k :: 0 <= k < |kept| ==> kept[k] == roles[|roles| - 1 - k]
    {
      kept := kept + [roles[i]];
      i := i - 1;
    }
    forall x | x in roles[1..]
      ensures x in kept
    {
      var j :| 1 <= j < |roles| && roles[j] == x;
      assert kept[|roles| - 1 - j] == x;
    }
    assert kept == KeptRoles(roles);
    r := Ok(kept);
  }

  /** `_roles_remover` (captcher/core.py:295-299): one `remove_roles` call
      per role but `@everyone`, last role first. No call is guarded, so when
      the bot may not manage roles the first one is `Forbidden` and ends the
      caller before anything was removed. */
  method RolesRemover(roles: seq<RoleId>, canManageRoles: bool) returns (effects: seq<Effect>, raised: bool)
    ensures raised <==> |roles| >= 2 && !canManageRoles
    ensures raised ==> effects == []
    ensures !raised ==> effects == RemovalsOf(KeptRoles(roles))
    ensures forall e: Effect :: e in effects <==> e.RoleRemoved? && !raised && |roles| >= 2 && e.role in roles[1..]
  {
    effects, raised := [], false;
    var i := |roles| - 1;
    while i > 0
      invariant |roles| < 2 ==> effects == []
      invariant |roles| >= 2 ==> 0 <= i <= |roles| - 1 && |effects| == |roles| - 1 - i
      invariant forall k :: 0 <= k < |effects| ==> effects[k] == RoleRemoved(roles[|roles| - 1 - k])
      invariant !canManageRoles ==> effects == []
    {
      if !canManageRoles {
        // `Forbidden` from the first `remove_roles`
        return [], true;
      }
      effects := effects + [RoleRemoved(roles[i])];
      i := i - 1;
    }
    assert effects == RemovalsOf(KeptRoles(roles));
    forall e: Effect | e.RoleRemoved? && |roles| >= 2 && e.role in roles[1..]
      ensures e in effects
    {
      var j :| 1 <= j < |roles| && roles[j] == e.role;
      assert effects[|roles| - 1 - j] == e;
    }
  }

  /** What `_add_role` is handed for each role: a role object, or the bare
      id `_role_keeper` collected. */
  datatype RoleArg = RoleObject(id: RoleId) | BareId(id: RoleId)

  /** The bare ids of `ids`, as `challengeuser` passes them on. */
  function BareIds(ids: seq<RoleId>): seq<RoleArg> {
    seq(|ids|, i requires 0 <= i < |ids| => BareId(ids[i]))
  }

  /** `member.add_roles(arg)` raises: it reads `arg.id`, which a bare `int`
      does not have (`AttributeError`), and a role the bot may not manage
      is `Forbidden`. */
  predicate AddFails(arg: RoleArg, canManageRoles: bool) {
    arg.BareId? || !canManageRoles
  }

  /** `_add_role` (captcher/core.py:301-303): one unguarded `add_roles` call
      per element, in order, so the roles before the first failing one are
      added and that one ends the caller. */
  method AddRole(roleList: seq<RoleArg>, canManageRoles: bool) returns (effects: seq<Effect>, raised: bool)
    ensures raised <==> exists i :: 0 <= i < |roleList| && AddFails(roleList[i], canManageRoles)
    ensures |effects| <= |roleList|
    ensures forall k :: 0 <= k < |effects| ==> !AddFails(roleList[k], canManageRoles) && effects[k] == RoleAdded(roleList[k].id)
    ensures raised ==> |effects| < |roleList| && AddFails(roleList[|effects|], canManageRoles)
    ensures !raised ==> |effects| == |roleList|
  {
    effects, raised := [], false;
    for i := 0 to |roleList|
      invariant |effects| == i
      invariant forall k :: 0 <= k < i ==> !AddFails(roleList[k], canManageRoles) && effects[k] == RoleAdded(roleList[k].id)
    {
      if AddFails(roleList[i], canManageRoles) {
        return effects, true;
      }
      effects := effects + [RoleAdded(roleList[i].id)];
    }
  }

  // ---------------------------------------------------------------------
  // What the outside world answers during a challenge

  /** The answers of Discord and of the bot's caches that the plugin's
      branches depend on. */
  datatype World = World(
    verificationResolves: bool,           // `bot.get_channel(verification_channel)` finds it
    logsResolves: bool,                   // `bot.get_channel(logs_channel)` finds it
    giveRoleResolves: bool,               // `guild.get_role(giverole)` finds it
    tempRoleResolves: bool,               // `guild.get_role(temp_role)` finds it
    canManageRoles: bool,                 // role changes are not `Forbidden`
    canSend: bool,                        // the captcha message can be sent
    reply: Option<string>,                // the member's answer, `None` on timeout
    canKick: bool,                        // `member.kick()` succeeds
    canEditChannel: bool,                 // `channel.edit(overwrites=...)` succeeds
    overwrites: map<Target, Overwrite>)   // the verification channel's overwrites

  /** Everything the plugin does that is visible outside it. */
  datatype Effect =
    | TempRoleAdded(member: UserId)
    | Logged(channel: ChannelId, level: Level)
    | CaptchaSent
    | PassNotice
    | FailNotice
    | ChannelEdited(overwrites: map<Target, Overwrite>)
    | CaptchaDeleted
    | ReplyDeleted
    | FinalDeleted
    | Kicked(member: UserId)
    | RoleGiven(role: RoleId)
    | TempRoleRemoved(role: RoleId)
    | RoleRemoved(role: RoleId)
    | RoleAdded(role: RoleId)

  /** The log channel `_get_log_channel` finds, if any. */
  function LogChannel(config: GuildConfig, w: World): Option<ChannelId> {
    if config.logsChannel.Some? && w.logsResolves then config.logsChannel else None
  }

  /** `_report_log`'s visible effect: a message in the log channel when it
      resolves. */
  function Log(ch: Option<ChannelId>, level: Level): seq<Effect> {
    if ch.Some? then [Logged(ch.value, level)] else []
  }

  /** `_get_log_channel` remembers the log channel for the member whenever
      it resolves. */
  function CacheAfterLog(cache: map<UserId, ChannelId>, member: UserId, ch: Option<ChannelId>): (r: map<UserId, ChannelId>)
    ensures r - {member} == cache - {member}
  {
    if ch.Some? then cache[member := ch.value] else cache
  }

  predicate TempResolves(config: GuildConfig, w: World) {
    config.tempRole.Some? && w.tempRoleResolves
  }

  /** `member.add_roles(temp role)` succeeds: the role resolves and the bot
      may manage roles. */
  predicate TempRoleAdds(config: GuildConfig, w: World) {
    TempResolves(config, w) && w.canManageRoles
  }

  /** What `_give_role` returns: `None` after `Forbidden`, the given role's
      name, `True`, or an exception. */
  datatype Given = Refused | Named(role: RoleId) | Plain | GiveRaised

  /** `_give_role` (captcher/core.py:169-191). A configured role that does
      not resolve is reported and then passed as `None` to `add_roles`, and
      an unresolved temporary role is passed as `None` to `remove_roles`:
      both raise. */
  function GiveRoleSpec(config: GuildConfig, w: World): (Given, seq<Effect>) {
    var ch := LogChannel(config, w);
    if config.giverole.Some? then
      if !w.giveRoleResolves then (GiveRaised, Log(ch, Error))
      else if !w.canManageRoles then (Refused, Log(ch, Error))
      else if !TempResolves(config, w) then (GiveRaised, [RoleGiven(config.giverole.value)])
      else (Named(config.giverole.value), [RoleGiven(config.giverole.value)] + [TempRoleRemoved(config.tempRole.value)])
    else
      if !TempResolves(config, w) then (GiveRaised, [])
      else if !w.canManageRoles then (Refused, Log(ch, Error))
      else (Plain, [TempRoleRemoved(config.tempRole.value)])
  }

  /** What `_give_role` achieves: it reports the configured role as given
      (and the temporary one removed) exactly when both resolve and the bot
      may manage roles; the configured role is in fact given whenever it
      resolves and may be managed, so a missing temporary role makes it
      give the role and then raise; with no role configured only the
      temporary role is removed; the bot's lack of permission is reported
      as a refusal whenever the first role it would touch resolves. */
  lemma GiveRoleOutcomes(config: GuildConfig, w: World)
    ensures var r := GiveRoleSpec(config, w);
      && (r.0.Named? <==> config.giverole.Some? && w.giveRoleResolves && w.canManageRoles && TempResolves(config, w))
      && (r.0.Named? ==> config.giverole == Some(r.0.role) && RoleGiven(r.0.role) in r.1)
      && (forall x: RoleId :: RoleGiven(x) in r.1 <==> config.giverole == Some(x) && w.giveRoleResolves && w.canManageRoles)
      && (r.0 == GiveRaised <==>
            || (config.giverole.Some? && !w.giveRoleResolves)
            || (!TempResolves(config, w) && (config.giverole.None? || (w.giveRoleResolves && w.canManageRoles))))
      && (r.0 == Plain <==> config.giverole.None? && TempResolves(config, w) && w.canManageRoles)
      && (r.0 == Refused <==> !w.canManageRoles && (if config.giverole.Some? then w.giveRoleResolves else TempResolves(config, w)))
      && (r.0.Named? || r.0 == Plain ==> config.tempRole.Some? && TempRoleRemoved(config.tempRole.value) in r.1)
      && (forall e :: e in r.1 ==> !e.RoleAdded? && !e.Kicked?)
  {
  }

  /** How `_challenge` ends: it returns `None` before waiting, returns
      whether the member passed, or raises. */
  datatype Outcome = NotSent | Finished(passed: bool) | Raised

  /** The start of `_challenge` (captcher/core.py:81-89). */
  function StartEffects(config: GuildConfig, w: World, member: UserId): seq<Effect> {
    var ch := LogChannel(config, w);
    (if TempRoleAdds(config, w) then [TempRoleAdded(member)] else Log(ch, Error)) + Log(ch, Started)
  }

  /** `_kicker` (captcher/core.py:222-243). */
  function KickEffects(config: GuildConfig, w: World, member: UserId): seq<Effect> {
    var ch := LogChannel(config, w);
    if w.canKick then [Kicked(member)] + Log(ch, Failed) else Log(ch, Error)
  }

  /** Muting (`option == false`) or unmuting the member in the channel, or
      reporting that it failed (captcher/core.py:118-124, 133-139). */
  function EditEffects(config: GuildConfig, w: World, member: UserId, option: bool): seq<Effect> {
    if w.canEditChannel then [ChannelEdited(MuteOrUnmute(w.overwrites, member, option))] else Log(LogChannel(config, w), Error)
  }

  /** `_challenge` with `_predication_result` inlined
      (captcher/core.py:69-167). On a timeout the DM is never sent (its
      f-string names an undefined `guild`, and the `NameError` is
      suppressed), the member is kicked, and the comparison then reads an
      unbound `user_message` and raises before any clean-up. */
  function ChallengeSpec(config: GuildConfig, member: UserId, code: string, w: World): (Outcome, seq<Effect>) {
    var ch := LogChannel(config, w);
    var start := StartEffects(config, w, member);
    if !w.canSend then (NotSent, start + Log(ch, Error))
    else if w.reply.None? then (Raised, start + [CaptchaSent] + KickEffects(config, w, member))
    else
      var (outcome, rest) := VerdictSpec(config, member, w.reply.value == code, w);
      (outcome, start + [CaptchaSent] + rest)
  }

  /** The part of `_challenge` after the answer was read
      (captcher/core.py:104-139): a right answer is told, the roles are
      handed out and the success logged; a wrong one mutes the member, is
      told, and once the captcha is deleted the member is kicked and
      unmuted; both end deleting the answer and the notice. */
  function VerdictSpec(config: GuildConfig, member: UserId, passed: bool, w: World): (Outcome, seq<Effect>) {
    if passed then
      var (given, giveEffects) := GiveRoleSpec(config, w);
      if given == GiveRaised then (Raised, [PassNotice] + giveEffects)
      else (Finished(true), [PassNotice] + giveEffects + Log(LogChannel(config, w), Completed) + [CaptchaDeleted, ReplyDeleted, FinalDeleted])
    else
      (Finished(false), EditEffects(config, w, member, false) + [FailNotice, CaptchaDeleted]
                        + (KickEffects(config, w, member) + EditEffects(config, w, member, true) + [ReplyDeleted, FinalDeleted]))
  }

  /** The cache after a challenge: the member's entry is gone once the
      challenge finishes, and otherwise holds the log channel if one
      resolved. */
  function CacheAfterChallenge(cache: map<UserId, ChannelId>, member: UserId, ch: Option<ChannelId>, outcome: Outcome): map<UserId, ChannelId> {
    if outcome.Finished? then cache - {member} else CacheAfterLog(cache, member, ch)
  }

  // ---------------------------------------------------------------------
  // Properties of a challenge

  /** The captcha is only missing when it could not be sent, and then
      nobody is kicked and nothing is deleted. */
  lemma ChallengeNotSent(config: GuildConfig, member: UserId, code: string, w: World)
    ensures var (outcome, effects) := ChallengeSpec(config, member, code, w);
      && (outcome == NotSent <==> !w.canSend)
      && (outcome == NotSent ==> CaptchaSent !in effects && Kicked(member) !in effects && CaptchaDeleted !in effects)
  {
  }

  /** An answer that was given decides the result: the member passes iff it
      equals the code, unless handing out the roles raises. */
  lemma ChallengePassesIffCodeMatches(config: GuildConfig, member: UserId, code: string, w: World)
    requires w.canSend && w.reply.Some?
    ensures var (outcome, _) := ChallengeSpec(config, member, code, w);
      && (w.reply.value != code ==> outcome == Finished(false))
      && (w.reply.value == code ==> outcome == Finished(true) || (outcome == Raised && GiveRoleSpec(config, w).0 == GiveRaised))
  {
  }

  /** A member who typed the code is never kicked. */
  lemma ChallengeNoKickOnPass(config: GuildConfig, member: UserId, code: string, w: World)
    requires w.reply == Some(code)
    ensures Kicked(member) !in ChallengeSpec(config, member, code, w).1
  {
    GiveRoleOutcomes(config, w);
    if w.canSend {
      var v := VerdictSpec(config, member, true, w).1;
      assert Kicked(member) !in v;
    }
  }

  /** The verdict on a wrong answer, in order: the mute (or its failure
      report), the notice, the captcha's deletion, the kick (or its
      failure report), the unmute, and the two last deletions. */
  lemma {:induction false} VerdictFailureOrder(config: GuildConfig, member: UserId, w: World)
    ensures var v := VerdictSpec(config, member, false, w).1;
      var i := |EditEffects(config, w, member, false)|;
      && i + 4 <= |v|
      && v[..i] == EditEffects(config, w, member, false)
      && v[i] == FailNotice && v[i + 1] == CaptchaDeleted
      && v[i + 2..|v| - 2] == KickEffects(config, w, member) + EditEffects(config, w, member, true)
      && (w.canKick <==> Kicked(member) in v[i + 2..])
      && (w.canKick ==> v[i + 2] == Kicked(member))
      && v[|v| - 2..] == [ReplyDeleted, FinalDeleted]
  {
    var v := VerdictSpec(config, member, false, w).1;
    var mute := EditEffects(config, w, member, false);
    var middle := KickEffects(config, w, member) + EditEffects(config, w, member, true);
    var tail := middle + [ReplyDeleted, FinalDeleted];
    assert v == mute + [FailNotice, CaptchaDeleted] + tail;
    assert v[..|mute|] == mute;
    assert v[|mute|..] == [FailNotice, CaptchaDeleted] + tail;
    assert v[|mute| + 2..] == tail;
    assert v[|mute| + 2..|v| - 2] == tail[..|middle|] == middle;
    assert Kicked(member) !in EditEffects(config, w, member, true);
  }

  /** A wrong answer: the member is muted (or the failure reported), told,
      the captcha is deleted, then the member is kicked (or that failure
      reported) and unmuted, and finally the answer and the notice are
      deleted. */
  lemma {:induction false} ChallengeFailureOrder(config: GuildConfig, member: UserId, code: string, w: World)
    requires w.canSend && w.reply.Some? && w.reply.value != code
    ensures var effects := ChallengeSpec(config, member, code, w).1;
      var s := |StartEffects(config, w, member)|;
      var i := s + 1 + |EditEffects(config, w, member, false)|;
      && i + 4 <= |effects|
      && effects[..s] == StartEffects(config, w, member) && effects[s] == CaptchaSent
      && effects[s + 1..i] == EditEffects(config, w, member, false)
      && effects[i] == FailNotice && effects[i + 1] == CaptchaDeleted
      && effects[i + 2..|effects| - 2] == KickEffects(config, w, member) + EditEffects(config, w, member, true)
      && (w.canKick <==> Kicked(member) in effects[i + 2..])
      && (w.canKick ==> effects[i + 2] == Kicked(member))
      && effects[|effects| - 2..] == [ReplyDeleted, FinalDeleted]
  {
    var start := StartEffects(config, w, member);
    var pre := start + [CaptchaSent];
    var v := VerdictSpec(config, member, false, w).1;
    var i := |EditEffects(config, w, member, false)|;
    VerdictFailureOrder(config, member, w);
    assert ChallengeSpec(config, member, code, w).1 == pre + v;
    assert (pre + v)[..|start|] == start;
    ShiftedSlice(pre, v, 0, i);
    ShiftedSlice(pre, v, i + 2, |v| - 2);
    ShiftedSuffix(pre, v, i + 2);
    ShiftedSuffix(pre, v, |v| - 2);
  }

  /** Indexing past a prefix. */
  lemma ShiftedSuffix(pre: seq<Effect>, v: seq<Effect>, k: nat)
    requires k <= |v|
    ensures (pre + v)[|pre| + k..] == v[k..]
  {
  }

  /** Slicing past a prefix. */
  lemma ShiftedSlice(pre: seq<Effect>, v: seq<Effect>, j: nat, k: nat)
    requires j <= k <= |v|
    ensures (pre + v)[|pre| + j..|pre| + k] == v[j..k]
  {
  }

  /** On a timeout the member is kicked when possible, and the exception
      that follows skips every deletion. */
  lemma ChallengeTimeout(config: GuildConfig, member: UserId, code: string, w: World)
    requires w.canSend && w.reply.None?
    ensures var (outcome, effects) := ChallengeSpec(config, member, code, w);
      && outcome == Raised
      && (Kicked(member) in effects <==> w.canKick)
      && CaptchaDeleted !in effects && ReplyDeleted !in effects && FinalDeleted !in effects
  {
  }

  /** A finished challenge always cleans up: the captcha, the answer and
      the notice are deleted, and the member leaves the cache. */
  lemma ChallengeFinishedCleansUp(config: GuildConfig, member: UserId, code: string, w: World, cache: map<UserId, ChannelId>)
    ensures var (outcome, effects) := ChallengeSpec(config, member, code, w);
      outcome.Finished? ==>
        && CaptchaDeleted in effects
        && |effects| >= 2 && effects[|effects| - 2..] == [ReplyDeleted, FinalDeleted]
        && member !in CacheAfterChallenge(cache, member, LogChannel(config, w), outcome)
  {
    if w.canSend && w.reply.Some? {
      var pre := StartEffects(config, w, member) + [CaptchaSent];
      var v := VerdictSpec(config, member, w.reply.value == code, w).1;
      VerdictFinishedCleansUp(config, member, w.reply.value == code, w);
      if VerdictSpec(config, member, w.reply.value == code, w).0.Finished? {
        ShiftedSuffix(pre, v, |v| - 2);
      }
    }
  }

  /** A finished verdict ends deleting the captcha, the answer and the
      notice. */
  lemma VerdictFinishedCleansUp(config: GuildConfig, member: UserId, passed: bool, w: World)
    ensures var (outcome, v) := VerdictSpec(config, member, passed, w);
      outcome.Finished? ==> CaptchaDeleted in v && |v| >= 2 && v[|v| - 2..] == [ReplyDeleted, FinalDeleted]
  {
  }
}
