/** Changing the contract's settings: within which ranges, by whose leave, and what stays as it was. */
module Settings {
  import opened Types
  import opened Records
  import opened Machine
  import opened Authority
  import opened Runs
  import opened Custody
  import Outcomes

  /** The range of each setting. */
  ghost predicate InRange(g: Globals, setting: Setting) {
    match setting
    case ArbitrationFee(bps) =>
      bps <= MAX_ARBITRATION_FEE_BPS && g.cfg.protocolFeeBps + bps <= MAX_COMBINED_FEE_BPS
    case PlatformFee(bps) => bps <= MAX_PLATFORM_FEE_BPS
    case AppealFee(bps) => bps == 0 || MIN_APPEAL_FEE_BPS <= bps <= MAX_APPEAL_FEE_BPS
    case DisputeTimeout(seconds) => MIN_DISPUTE_TIMEOUT <= seconds <= MAX_DISPUTE_TIMEOUT
    case AmountLimits(min, max) => 0 < min < max
    case MaxAppeals(n) => MIN_MAX_APPEALS <= n <= MAX_MAX_APPEALS
    case DisallowToken(t) => t in g.allowedTokens
    case RemoveResolver(a) => a in g.approvedResolvers
    case Admin(next) => next != g.admin
    case ProposeCollector(next) =>
      next != ZeroAddress && next != g.admin && g.cfg.feeCollector.Some? && g.cfg.feeCollector != Some(next)
    case ProposeTreasury(next) =>
      next != ZeroAddress && next != g.admin && g.cfg.treasury.Some? && g.cfg.treasury != Some(next)
    case _ => true
  }

  /** Every setting reads back what was asked for, if it was asked for, and what it was otherwise. */
  ghost predicate ReadsBack(g: Globals, g': Globals, setting: Setting) {
    && g'.cfg.arbitrationFeeBps == (if setting.ArbitrationFee? then setting.bps else g.cfg.arbitrationFeeBps)
    && g'.cfg.platformFeeBps == (if setting.PlatformFee? then setting.bps else g.cfg.platformFeeBps)
    && g'.cfg.appealFeeBps == (if setting.AppealFee? then setting.bps else g.cfg.appealFeeBps)
    && g'.cfg.disputeTimeout == (if setting.DisputeTimeout? then setting.seconds else g.cfg.disputeTimeout)
    && g'.cfg.recoveryMode == (if setting.RecoveryMode? then setting.on else g.cfg.recoveryMode)
    && g'.cfg.paused == (if setting.Paused? then setting.on else g.cfg.paused)
    && g'.cfg.allowlistEnabled == (if setting.AllowlistEnabled? then setting.on else g.cfg.allowlistEnabled)
    && g'.cfg.resolverStrict == (if setting.ResolverStrict? then setting.on else g.cfg.resolverStrict)
    && g'.cfg.minAmount == (if setting.AmountLimits? then setting.min else g.cfg.minAmount)
    && g'.cfg.maxAmount == (if setting.AmountLimits? then setting.max else g.cfg.maxAmount)
    && g'.cfg.feeCollector == g.cfg.feeCollector && g'.cfg.treasury == g.cfg.treasury
    && g'.cfg.protocolFeeBps == g.cfg.protocolFeeBps
    && g'.maxAppeals == (if setting.MaxAppeals? then setting.n else g.maxAppeals)
    && g'.admin == (if setting.Admin? then setting.next else g.admin)
    && g'.pendingCollector == (if setting.ProposeCollector? then Some(setting.next) else g.pendingCollector)
    && g'.pendingTreasury == (if setting.ProposeTreasury? then Some(setting.next) else g.pendingTreasury)
    && g'.now == g.now && g'.arbitrationTotals == g.arbitrationTotals
    && ListsReadBack(g, g', setting)
  }

  ghost predicate ListsReadBack(g: Globals, g': Globals, setting: Setting) {
    && (forall x :: x in g'.pausedActions <==>
          if setting.ActionPaused? && setting.action == x then setting.on else x in g.pausedActions)
    && (forall t :: t in g'.allowedTokens <==>
          (t in g.allowedTokens || setting == AllowToken(t)) && setting != DisallowToken(t))
    && (forall a :: a in g'.approvedResolvers <==>
          (a in g.approvedResolvers || setting == ApproveResolver(a)) && setting != RemoveResolver(a))
  }

  lemma RangeIsChecked(g: Globals, setting: Setting)
    requires g.cfg.protocolFeeBps <= MAX_COMBINED_FEE_BPS
    ensures ApplySetting(g, setting).Ok? <==> InRange(g, setting)
  {
  }

  lemma SettingTakes(g: Globals, setting: Setting)
    requires ApplySetting(g, setting).Ok?
    ensures ReadsBack(g, ApplySetting(g, setting).value, setting)
  {
  }

  /** Immediate changes carry the admin's signature; the others go through the timelock. */
  ghost predicate ByLeave(g: Globals, signers: Signers, setting: Setting, timelocked: bool) {
    if timelocked then !setting.DisputeTimeout? && !setting.RecoveryMode? && !setting.ActionPaused?
    else Signs(signers, g.admin)
         && !setting.AppealFee? && !setting.Paused? && !setting.ApproveResolver? && !setting.RemoveResolver?
         && !setting.ResolverStrict? && !setting.AmountLimits? && !setting.MaxAppeals? && !setting.Admin?
  }

  /** A collector or treasury takes office by accepting a proposal made to it. */
  ghost predicate TakesOffice(g: Globals, g': Globals, signers: Signers, i: Call) {
    match i
    case AcceptFeeCollector(caller) =>
      && Signs(signers, caller) && g.pendingCollector == Some(caller) && g.cfg.feeCollector.Some?
      && g' == g.(cfg := g.cfg.(feeCollector := Some(caller)), pendingCollector := None)
    case AcceptTreasury(caller) =>
      && Signs(signers, caller) && g.pendingTreasury == Some(caller)
      && g' == g.(cfg := g.cfg.(treasury := Some(caller)), pendingTreasury := None)
    case _ => false
  }

  /** Settings, apart from the clock and the fee totals. */
  ghost predicate SameSettings(g: Globals, g': Globals) {
    g' == g.(now := g'.now, arbitrationTotals := g'.arbitrationTotals)
  }

  lemma SettingCall(s: State, signers: Signers, c: Call)
    requires s.g.cfg.protocolFeeBps <= MAX_COMBINED_FEE_BPS && c.ChangeSetting?
    ensures ExecOther(s, signers, c).Ok? <==>
            ByLeave(s.g, signers, c.setting, c.timelocked) && InRange(s.g, c.setting)
    ensures ExecOther(s, signers, c).Ok? ==>
              && ReadsBack(s.g, ExecOther(s, signers, c).value.g, c.setting)
              && ExecOther(s, signers, c).value == s.(g := ExecOther(s, signers, c).value.g)
  {
    RangeIsChecked(s.g, c.setting);
    if ApplySetting(s.g, c.setting).Ok? {
      SettingTakes(s.g, c.setting);
    }
  }

  lemma OfficeCall(s: State, signers: Signers, c: Call)
    requires c.AcceptFeeCollector? || c.AcceptTreasury?
    ensures ExecOther(s, signers, c).Ok? ==>
              && TakesOffice(s.g, ExecOther(s, signers, c).value.g, signers, c)
              && ExecOther(s, signers, c).value == s.(g := ExecOther(s, signers, c).value.g)
  {
  }

  lemma CallKeepsSettings(s: State, signers: Signers, c: Call)
    requires ActsOnEscrow(c) && Exec(s, signers, c).Ok?
    ensures SameSettings(s.g, Exec(s, signers, c).value.g) && Exec(s, signers, c).value.g.now == s.g.now
  {
    ExecIsCommit(s, signers, c);
  }

  lemma OtherKeepsSettings(s: State, signers: Signers, c: Call)
    requires !ActsOnEscrow(c) && !c.ChangeSetting? && !c.AcceptFeeCollector? && !c.AcceptTreasury?
    requires Exec(s, signers, c).Ok?
    ensures SameSettings(s.g, Exec(s, signers, c).value.g) && s.g.now <= Exec(s, signers, c).value.g.now
    ensures Exec(s, signers, c).value.g.now != s.g.now ==> c.Elapse? && Exec(s, signers, c).value.g.now == c.to
  {
    if CreatesOne(c) {
      CreationKeepsSettings(s, signers, c);
    } else if c.BatchCreateEscrow? {
      Outcomes.IssueAllKeepsGlobals(s, c.seller, c.inputs);
    }
  }

  lemma CreationKeepsSettings(s: State, signers: Signers, c: Call)
    requires CreatesOne(c) && Exec(s, signers, c).Ok?
    ensures Exec(s, signers, c).value.g == s.g
  {
  }

  /** Along every run, settings change only within their ranges and by leave of the admin, the timelock or a proposed
      office holder, each change reads back as asked, and every other setting stays as it was. */
  lemma SettingsNeedLeave(s: State, i: Input)
    requires Reachable(s)
    ensures var (g, g') := (s.g, Next(s, i).g);
            || SameSettings(g, g')
            || TakesOffice(g, g', i.signers, i.call)
            || (i.call.ChangeSetting? && ByLeave(g, i.signers, i.call.setting, i.call.timelocked)
                && InRange(g, i.call.setting) && ReadsBack(g, g', i.call.setting))
  {
    Outcomes.GoodSettings(s);
    if Exec(s, i.signers, i.call).Ok? {
      if ActsOnEscrow(i.call) {
        CallKeepsSettings(s, i.signers, i.call);
      } else if i.call.ChangeSetting? {
        SettingCall(s, i.signers, i.call);
      } else if i.call.AcceptFeeCollector? || i.call.AcceptTreasury? {
        OfficeCall(s, i.signers, i.call);
      } else {
        OtherKeepsSettings(s, i.signers, i.call);
      }
    }
  }
}
