/** The role generators of every protocol, yield by yield. Writing commitments is not part of the model. */
module Scripts {
  import opened Models
  import opened Protocols

  const NO_ROLE := Generator(0, [], 0, [], [])

  function Ini(d: Doc): Var { Var(Initiator, d) }
  function Mid(d: Doc): Var { Var(Intermediary, d) }
  function Res(d: Doc): Var { Var(Responder, d) }

  function SetupProtocol(): Protocol { OneRound(Setup) }

  /** `update` and `take-action` exchange signatures on the app's next state. */
  function UpdateProtocol(): Protocol { OneRound(AppState) }

  function UninstallProtocol(): Protocol { OneRound(UninstallUpdate) }

  function OneRound(d: Doc): Protocol {
    Protocol(
      Generator(0, [], 0, [
        Sign(d),
        SendAndWait(0, [Ini(d)], 1, [Res(d)]),
        Check(Res(d)),
        Persist
      ], [Res(d)]),
      NO_ROLE,
      Generator(1, [Ini(d)], 0, [
        Check(Ini(d)),
        Sign(d),
        Persist,
        Send(1, [Res(d)])
      ], [Ini(d)]),
      [MessageType(Initiator, Responder, 1, [Ini(d)]),
       MessageType(Responder, Initiator, UNASSIGNED_SEQ_NO, [Res(d)])])
  }

  /** The initiator persists before it has sent anything. */
  function ProposeProtocol(): Protocol {
    Protocol(
      Generator(0, [], 0, [
        Persist,
        Sign(InitialState),
        SendAndWait(0, [Ini(InitialState)], 1, [Res(InitialState)]),
        Check(Res(InitialState))
      ], [Res(InitialState)]),
      NO_ROLE,
      Generator(1, [Ini(InitialState)], 0, [
        Check(Ini(InitialState)),
        Persist,
        Sign(InitialState),
        Send(1, [Res(InitialState)])
      ], [Ini(InitialState)]),
      [MessageType(Initiator, Responder, 1, [Ini(InitialState)]),
       MessageType(Responder, Initiator, UNASSIGNED_SEQ_NO, [Res(InitialState)])])
  }

  function InstallProtocol(): Protocol {
    Protocol(
      Generator(0, [], 0, [
        Sign(ConditionalTx),
        SendAndWait(0, [Ini(ConditionalTx)], 1, [Res(ConditionalTx), Res(FreeBalanceUpdate)]),
        Check(Res(ConditionalTx)),
        Check(Res(FreeBalanceUpdate)),
        Sign(FreeBalanceUpdate),
        Persist,
        SendAndWait(2, [Ini(FreeBalanceUpdate)], 3, [])
      ], [Res(FreeBalanceUpdate)]),
      NO_ROLE,
      Generator(1, [Ini(ConditionalTx)], 0, [
        Check(Ini(ConditionalTx)),
        Sign(ConditionalTx),
        Sign(FreeBalanceUpdate),
        SendAndWait(1, [Res(ConditionalTx), Res(FreeBalanceUpdate)], 2, [Ini(FreeBalanceUpdate)]),
        Check(Ini(FreeBalanceUpdate)),
        Persist,
        Send(3, [])
      ], [Ini(FreeBalanceUpdate)]),
      [MessageType(Initiator, Responder, 1, [Ini(ConditionalTx)]),
       MessageType(Responder, Initiator, UNASSIGNED_SEQ_NO, [Res(ConditionalTx), Res(FreeBalanceUpdate)]),
       MessageType(Initiator, Responder, UNASSIGNED_SEQ_NO, [Ini(FreeBalanceUpdate)]),
       MessageType(Responder, Initiator, UNASSIGNED_SEQ_NO, [])])
  }

  function WithdrawProtocol(): Protocol {
    Protocol(
      Generator(0, [], 0, [
        Sign(ConditionalTx),
        SendAndWait(0, [Ini(ConditionalTx)], 1, [Res(ConditionalTx), Res(FreeBalanceUpdate)]),
        Check(Res(ConditionalTx)),
        Check(Res(FreeBalanceUpdate)),
        Sign(FreeBalanceUpdate),
        Sign(Withdrawal),
        SendAndWait(2, [Ini(FreeBalanceUpdate), Ini(Withdrawal)], 3, [Res(Withdrawal), Res(UninstallUpdate)]),
        Check(Res(Withdrawal)),
        Check(Res(UninstallUpdate)),
        Sign(UninstallUpdate),
        SendAndWait(4, [Ini(UninstallUpdate)], 5, []),
        Persist
      ], [Res(UninstallUpdate)]),
      NO_ROLE,
      Generator(1, [Ini(ConditionalTx)], 0, [
        Check(Ini(ConditionalTx)),
        Sign(ConditionalTx),
        Sign(FreeBalanceUpdate),
        SendAndWait(1, [Res(ConditionalTx), Res(FreeBalanceUpdate)], 2, [Ini(FreeBalanceUpdate), Ini(Withdrawal)]),
        Check(Ini(FreeBalanceUpdate)),
        Check(Ini(Withdrawal)),
        Sign(Withdrawal),
        Sign(UninstallUpdate),
        SendAndWait(3, [Res(Withdrawal), Res(UninstallUpdate)], 4, [Ini(UninstallUpdate)]),
        Check(Ini(UninstallUpdate)),
        Persist,
        Send(5, [])
      ], [Ini(UninstallUpdate)]),
      [MessageType(Initiator, Responder, 1, [Ini(ConditionalTx)]),
       MessageType(Responder, Initiator, UNASSIGNED_SEQ_NO, [Res(ConditionalTx), Res(FreeBalanceUpdate)]),
       MessageType(Initiator, Responder, UNASSIGNED_SEQ_NO, [Ini(FreeBalanceUpdate), Ini(Withdrawal)]),
       MessageType(Responder, Initiator, UNASSIGNED_SEQ_NO, [Res(Withdrawal), Res(UninstallUpdate)]),
       MessageType(Initiator, Responder, UNASSIGNED_SEQ_NO, [Ini(UninstallUpdate)]),
       MessageType(Responder, Initiator, UNASSIGNED_SEQ_NO, [])])
  }

  function InstallVirtualAppProtocol(): Protocol {
    Protocol(
      Generator(0, [], 0, [
        Sign(LeftAgreement),
        SendAndWait(0, [Ini(LeftAgreement)], 3, [Mid(LeftAgreement), Mid(LeftFreeBalance)]),
        Check(Mid(LeftAgreement)),
        Check(Mid(LeftFreeBalance)),
        Sign(LeftFreeBalance),
        Sign(PassThrough),
        Sign(VirtualApp),
        SendAndWait(4, [Ini(LeftFreeBalance), Ini(PassThrough), Ini(VirtualApp)], 7,
                    [Mid(PassThrough), Res(PassThrough), Res(VirtualApp)]),
        Check(Mid(PassThrough)),
        Check(Res(PassThrough)),
        Check(Res(VirtualApp)),
        Persist
      ], [Mid(LeftFreeBalance)]),
      Generator(1, [Ini(LeftAgreement)], 0, [
        Check(Ini(LeftAgreement)),
        Sign(RightAgreement),
        SendAndWait(1, [Mid(RightAgreement)], 2, [Res(RightAgreement), Res(RightFreeBalance)]),
        Check(Res(RightAgreement)),
        Check(Res(RightFreeBalance)),
        Sign(LeftFreeBalance),
        Sign(LeftAgreement),
        SendAndWait(3, [Mid(LeftAgreement), Mid(LeftFreeBalance)], 4,
                    [Ini(LeftFreeBalance), Ini(PassThrough), Ini(VirtualApp)]),
        Check(Ini(LeftFreeBalance)),
        Check(Ini(PassThrough)),
        Sign(RightFreeBalance),
        Sign(PassThrough),
        SendAndWait(5, [Mid(RightFreeBalance), Mid(PassThrough), Ini(PassThrough), Ini(VirtualApp)], 6,
                    [Res(PassThrough), Res(VirtualApp)]),
        Check(Res(PassThrough)),
        Send(7, [Mid(PassThrough), Res(PassThrough), Res(VirtualApp)]),
        Persist
      ], [Ini(LeftFreeBalance), Res(RightFreeBalance)]),
      Generator(2, [Mid(RightAgreement)], 1, [
        Check(Mid(RightAgreement)),
        Sign(RightAgreement),
        Sign(RightFreeBalance),
        SendAndWait(2, [Res(RightAgreement), Res(RightFreeBalance)], 5,
                    [Mid(RightFreeBalance), Mid(PassThrough), Ini(PassThrough), Ini(VirtualApp)]),
        Check(Mid(RightFreeBalance)),
        Check(Mid(PassThrough)),
        Check(Ini(PassThrough)),
        Check(Ini(VirtualApp)),
        Sign(PassThrough),
        Sign(VirtualApp),
        Send(6, [Res(PassThrough), Res(VirtualApp)]),
        Persist
      ], [Mid(RightFreeBalance)]),
      [MessageType(Initiator, Intermediary, 1, [Ini(LeftAgreement)]),
       MessageType(Intermediary, Responder, 2, [Mid(RightAgreement)]),
       MessageType(Responder, Intermediary, UNASSIGNED_SEQ_NO, [Res(RightAgreement), Res(RightFreeBalance)]),
       MessageType(Intermediary, Initiator, UNASSIGNED_SEQ_NO, [Mid(LeftAgreement), Mid(LeftFreeBalance)]),
       MessageType(Initiator, Intermediary, UNASSIGNED_SEQ_NO, [Ini(LeftFreeBalance), Ini(PassThrough), Ini(VirtualApp)]),
       MessageType(Intermediary, Responder, UNASSIGNED_SEQ_NO,
                   [Mid(RightFreeBalance), Mid(PassThrough), Ini(PassThrough), Ini(VirtualApp)]),
       MessageType(Responder, Intermediary, UNASSIGNED_SEQ_NO, [Res(PassThrough), Res(VirtualApp)]),
       MessageType(Intermediary, Initiator, UNASSIGNED_SEQ_NO, [Mid(PassThrough), Res(PassThrough), Res(VirtualApp)])])
  }

  function UninstallVirtualAppProtocol(): Protocol {
    Protocol(
      Generator(0, [], 0, [
        Sign(PassThrough),
        SendAndWait(0, [Ini(PassThrough)], 3, [Res(PassThrough), Mid(PassThrough)]),
        Check(Res(PassThrough)),
        Check(Mid(PassThrough)),
        Sign(LeftFreeBalance),
        SendAndWait(4, [Ini(LeftFreeBalance)], 7, [Mid(LeftFreeBalance)]),
        Check(Mid(LeftFreeBalance)),
        Persist
      ], [Mid(LeftFreeBalance)]),
      Generator(1, [Ini(PassThrough)], 0, [
        Check(Ini(PassThrough)),
        Sign(PassThrough),
        SendAndWait(1, [Ini(PassThrough), Mid(PassThrough)], 2, [Res(PassThrough)]),
        Check(Res(PassThrough)),
        SendAndWait(3, [Res(PassThrough), Mid(PassThrough)], 4, [Ini(LeftFreeBalance)]),
        Check(Ini(LeftFreeBalance)),
        Sign(LeftFreeBalance),
        Sign(RightFreeBalance),
        SendAndWait(5, [Mid(RightFreeBalance)], 6, [Res(RightFreeBalance)]),
        Check(Res(RightFreeBalance)),
        Persist,
        Send(7, [Mid(LeftFreeBalance)])
      ], [Ini(LeftFreeBalance), Res(RightFreeBalance)]),
      Generator(2, [Ini(PassThrough), Mid(PassThrough)], 1, [
        Check(Ini(PassThrough)),
        Check(Mid(PassThrough)),
        Sign(PassThrough),
        SendAndWait(2, [Res(PassThrough)], 5, [Mid(RightFreeBalance)]),
        Check(Mid(RightFreeBalance)),
        Sign(RightFreeBalance),
        Persist,
        Send(6, [Res(RightFreeBalance)])
      ], [Mid(RightFreeBalance)]),
      [MessageType(Initiator, Intermediary, 1, [Ini(PassThrough)]),
       MessageType(Intermediary, Responder, 2, [Ini(PassThrough), Mid(PassThrough)]),
       MessageType(Responder, Intermediary, UNASSIGNED_SEQ_NO, [Res(PassThrough)]),
       MessageType(Intermediary, Initiator, UNASSIGNED_SEQ_NO, [Res(PassThrough), Mid(PassThrough)]),
       MessageType(Initiator, Intermediary, UNASSIGNED_SEQ_NO, [Ini(LeftFreeBalance)]),
       MessageType(Intermediary, Responder, UNASSIGNED_SEQ_NO, [Mid(RightFreeBalance)]),
       MessageType(Responder, Intermediary, UNASSIGNED_SEQ_NO, [Res(RightFreeBalance)]),
       MessageType(Intermediary, Initiator, UNASSIGNED_SEQ_NO, [Mid(LeftFreeBalance)])])
  }
}
