/** The block that any body makes on a tip, its header filled in as a miner fills it in. */
module Mining {
  import opened Wrappers
  import opened Words
  import opened Curve
  import opened Sorting
  import opened Utxos
  import opened Transactions
  import opened Ledgers
  import opened LedgerProofs
  import opened SupplyProofs
  import opened Blocks
  import opened Consensus
  import opened StepProofs
  import opened Templates

  function MinedHeader(cfg: Config, hs: Headers, body: Body, next: Ledger, due: u64, timestamp: u64, nonce: u64): BlockHeader {
    BlockHeader(PROTOCOL_VERSION, NextHeight(hs), TipHash(cfg, hs), RootOf(next.utxos), next.kernelSum, RootOfBody(body),
                LaterOf(timestamp, SaturatingAdd(MedianTimePast(hs), 1)), NextDifficulty(cfg, hs), nonce, due)
  }

  /** The ledger that a body leaves on a tip, if it can be applied there. */
  function LedgerWith(cfg: Config, hs: Headers, l: Ledger, body: Body): Result<Ledger, LedgerError> {
    Apply(l, body, NextHeight(hs), Subsidy(l, NextHeight(hs)), cfg.network)
  }

  function Mined(cfg: Config, hs: Headers, l: Ledger, body: Body, timestamp: u64, nonce: u64): Block
    requires LedgerWith(cfg, hs, l, body).Success?
  {
    Block(MinedHeader(cfg, hs, body, LedgerWith(cfg, hs, l, body).value, CoinbaseDue(Subsidy(l, NextHeight(hs)), TotalFee(body.kernels)),
                      timestamp, nonce), body)
  }

  lemma {:induction false} AppliedShape(l: Ledger, b: Body, height: nat, subsidy: u64, ctx: Network)
    requires Apply(l, b, height, subsidy, ctx).Success? && (BindingActive(l, height) || !HasAnyBinding(b))
    ensures b.outputs != [] && b.kernels != [] && !ExceedsSizeLimits(b) && CheckSpends(b.inputs, {}, l.utxos).Pass?
  {
    hide Apply, CheckBody, CheckSpends, HasAnyBinding, VerifySupply, IsCanonical, ExceedsSizeLimits, NextKernelSum, NextSupply;
    ApplySteps(l, b, height, subsidy, ctx);
    BodySteps(l, b, height, subsidy, ctx);
  }

  /** Such a block is accepted on its tip whenever its work, the clock and the pins allow. */
  lemma {:induction false} MinedIsAccepted(cfg: Config, hs: Headers, l: Ledger, body: Body, timestamp: u64, nonce: u64, now: u64)
    requires l.bindingHeight == BindingForkHeight(cfg.network) && LedgerWith(cfg, hs, l, body).Success?
    requires BindingAt(cfg, NextHeight(hs)) || !HasAnyBinding(body)
    requires SealFits(cfg, hs, Mined(cfg, hs, l, body, timestamp, nonce), now)
    ensures var b := Mined(cfg, hs, l, body, timestamp, nonce);
            && Normal(cfg, b) == b && CaptureUndo(l, body).Success?
            && Accept(cfg, hs, l, b, now, true)
               == Success(Step(b, LedgerWith(cfg, hs, l, body).value, TipUndo(Work(b.header.difficulty), CaptureUndo(l, body).value)))
  {
    hide Apply, Subsidy, RootOf, RootOfBody, MedianTimePast, NextDifficulty, NextHeight, TipHash, CoinbaseDue, SaturatingAdd, SealFits,
         CheckHeader, CaptureUndo, TotalFee, StripBinding, CheckSpends, ExceedsSizeLimits, HasAnyBinding;
    var b := Mined(cfg, hs, l, body, timestamp, nonce);
    StripRemovesBinding(body);
    AppliedShape(l, body, NextHeight(hs), Subsidy(l, NextHeight(hs)), cfg.network);
    CaptureWhenSpendable(l, body);
    SealedHeader(cfg, hs, b, now, timestamp);
  }
}
