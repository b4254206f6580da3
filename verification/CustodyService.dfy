/** The custody token service object (token-service.ts:58-359): each method
    resolves what it needs in its own order, calls the asset's standard, and
    turns what was thrown into a failed receipt. */
module CustodyService {
  import opened Wrappers
  import opened Chain
  import opened OperationContexts
  import opened TokenStandards
  import opened Custody
  import Intents

  class CustodyTokenService {
    const registry: TokenStandardRegistry
    const lookups: Env     // the stores, the wallets, the chain; its standards are the registry's
    var ledgers: Ledgers

    constructor (registry: TokenStandardRegistry, lookups: Env, ledgers: Ledgers)
      ensures this.registry == registry && this.lookups == lookups && this.ledgers == ledgers
    {
      this.registry, this.lookups, this.ledgers := registry, lookups, ledgers;
    }

    function Env(): Custody.Env
      reads registry
    {
      lookups.(standards := registry.standards)
    }

    method Issue(ast: Intents.Asset, destination: Destination, quantity: string, exCtx: Option<ExecutionContext>, fate: Fate) returns (receipt: Receipt)
      modifies this`ledgers
      ensures Served(receipt, ledgers) == Serve(Env(), old(ledgers), Call(Custody.Issue(destination, quantity), ast, None, exCtx, fate))
    {
      var done := TryIssue(ast, destination, quantity, fate);
      return if done.Err? then Failed(done.error) else Receipt(IssueReceipt, Some(destination.finId), Some(destination.finId), quantity, None);
    }

    method TryIssue(ast: Intents.Asset, destination: Destination, quantity: string, fate: Fate) returns (r: Result<()>)
      modifies this`ledgers
      ensures forall exCtx :: Attempted(r, ledgers) == Attempt(Env(), old(ledgers), Call(Custody.Issue(destination, quantity), ast, None, exCtx, fate))
    {
      var env := Env();
      var token :- ResolveToken(ast);
      if !env.issuer { return Err("ASSET_ISSUER_PRIVATE_KEY is not set"); }
      var address :- DestinationAddress(env, destination);
      var amount :- env.parseUnits(quantity, token.rec.decimals);
      r := AwaitCall(token.rec.contract, StdMint(LedgerOf(ledgers, token.rec.contract), address, amount), fate);
    }

    /** assetRecord and the registry's entry for its standard. */
    method ResolveToken(ast: Intents.Asset) returns (token: Result<Token>)
      ensures token == TokenOf(Env(), ast.assetId)
    {
      var rec :- RecordOf(lookups, ast.assetId);
      var holdModel :- registry.HoldModelOf(rec.standard);
      return Ok(Token(rec, holdModel));
    }

    /** The standard's call on the asset's contract, as far as the caller sees it. */
    method AwaitCall(contract: Address, accepted: Result<Ledger>, fate: Fate) returns (r: Result<()>)
      modifies this`ledgers
      ensures Attempted(r, ledgers) == AwaitOn(old(ledgers), contract, accepted, fate)
    {
      var l :- accepted;
      if fate.Throws? {
        if fate.mined { ledgers := ledgers[contract := l]; }
        return Err(THROWN);
      }
      ledgers := ledgers[contract := l];
      return Ok(());
    }

    method Transfer(source: Source, destination: Destination, ast: Intents.Asset, quantity: string,
                    signature: Option<Intents.Template>, exCtx: Option<ExecutionContext>, fate: Fate) returns (receipt: Receipt)
      modifies this`ledgers
      ensures Served(receipt, ledgers) == Serve(Env(), old(ledgers), Call(Custody.Transfer(source, destination, quantity), ast, signature, exCtx, fate))
    {
      var done := TryTransfer(source, destination, ast, quantity, signature, exCtx, fate);
      return if done.Err? then Failed(done.error) else Receipt(TransferReceipt, Some(source.finId), Some(destination.finId), quantity, None);
    }

    method TryTransfer(source: Source, destination: Destination, ast: Intents.Asset, quantity: string,
                       signature: Option<Intents.Template>, exCtx: Option<ExecutionContext>, fate: Fate) returns (r: Result<()>)
      modifies this`ledgers
      ensures Attempted(r, ledgers) == Attempt(Env(), old(ledgers), Call(Custody.Transfer(source, destination, quantity), ast, signature, exCtx, fate))
    {
      var env := Env();
      var token :- ResolveToken(ast);
      var from :- ResolveSourceWallet(env, source.finId);
      var amount :- env.parseUnits(quantity, token.rec.decimals);
      var address :- DestinationAddress(env, destination);
      r := AwaitCall(token.rec.contract, StdTransfer(LedgerOf(ledgers, token.rec.contract), from.signer, address, amount), fate);
    }

    method Redeem(source: Source, ast: Intents.Asset, quantity: string, operationId: Option<string>,
                  signature: Option<Intents.Template>, exCtx: Option<ExecutionContext>, fate: Fate) returns (receipt: Receipt)
      modifies this`ledgers
      ensures Served(receipt, ledgers) == Serve(Env(), old(ledgers), Call(Custody.Redeem(source, quantity, operationId), ast, signature, exCtx, fate))
    {
      var done := TryRedeem(source, ast, quantity, operationId, signature, exCtx, fate);
      return if done.Err? then Failed(done.error) else Receipt(RedeemReceipt, Some(source.finId), None, quantity, operationId);
    }

    method TryRedeem(source: Source, ast: Intents.Asset, quantity: string, operationId: Option<string>,
                     signature: Option<Intents.Template>, exCtx: Option<ExecutionContext>, fate: Fate) returns (r: Result<()>)
      modifies this`ledgers
      ensures Attempted(r, ledgers) == Attempt(Env(), old(ledgers), Call(Custody.Redeem(source, quantity, operationId), ast, signature, exCtx, fate))
    {
      var env := Env();
      var token :- ResolveToken(ast);
      var amount :- env.parseUnits(quantity, token.rec.decimals);
      var opCtx := BuildOperationContext(ast, signature, exCtx, operationId, Intents.RedeemIt);
      var l := LedgerOf(ledgers, token.rec.contract);
      if Given(operationId) && token.model == HolderReservation {
        // the tokens never left the holder's account: settle the reservation
        r := AwaitCall(token.rec.contract, StdRelease(token.model, l, env.escrow, ZERO_ADDRESS, amount, opCtx), fate);
        return;
      }
      var burnFrom := env.escrow;
      if !Given(operationId) {
        var resolved :- ResolveSourceWallet(env, source.finId);
        burnFrom := resolved.address;
      }
      r := AwaitCall(token.rec.contract, StdBurn(l, burnFrom, amount), fate);
    }

    method Hold(source: Source, destination: Option<Destination>, ast: Intents.Asset, quantity: string,
                signature: Option<Intents.Template>, operationId: string, exCtx: Option<ExecutionContext>, fate: Fate) returns (receipt: Receipt)
      modifies this`ledgers
      ensures Served(receipt, ledgers)
           == Serve(Env(), old(ledgers), Call(Custody.Hold(source, destination, quantity, operationId), ast, signature, exCtx, fate))
    {
      var done := TryHold(source, destination, ast, quantity, signature, operationId, exCtx, fate);
      return if done.Err? then Failed(done.error)
             else Receipt(HoldReceipt, Some(source.finId), if destination.Some? then Some(destination.value.finId) else None, quantity, Some(operationId));
    }

    method TryHold(source: Source, destination: Option<Destination>, ast: Intents.Asset, quantity: string,
                   signature: Option<Intents.Template>, operationId: string, exCtx: Option<ExecutionContext>, fate: Fate) returns (r: Result<()>)
      modifies this`ledgers
      ensures Attempted(r, ledgers) == Attempt(Env(), old(ledgers), Call(Custody.Hold(source, destination, quantity, operationId), ast, signature, exCtx, fate))
    {
      var env := Env();
      ghost var c := Call(Custody.Hold(source, destination, quantity, operationId), ast, signature, exCtx, fate);
      var token :- ResolveToken(ast);
      assert Attempt(env, ledgers, c) == AttemptOn(env, ledgers, c, token);
      var from :- ResolveSourceWallet(env, source.finId);
      var amount :- env.parseUnits(quantity, token.rec.decimals);
      var opCtx := BuildOperationContext(ast, signature, exCtx, Some(operationId), DeriveReleaseType(signature, FinIdOf(destination)));
      r := AwaitCall(token.rec.contract, StdHold(token.model, LedgerOf(ledgers, token.rec.contract), from.signer, env.escrow, amount, opCtx), fate);
    }

    method Release(source: Source, destination: Destination, ast: Intents.Asset, quantity: string, operationId: string,
                   exCtx: Option<ExecutionContext>, fate: Fate) returns (receipt: Receipt)
      modifies this`ledgers
      ensures Served(receipt, ledgers)
           == Serve(Env(), old(ledgers), Call(Custody.Release(source, destination, quantity, operationId), ast, None, exCtx, fate))
    {
      var done := TryRelease(source, destination, ast, quantity, operationId, exCtx, fate);
      return if done.Err? then Failed(done.error) else Receipt(ReleaseReceipt, Some(source.finId), Some(destination.finId), quantity, Some(operationId));
    }

    method TryRelease(source: Source, destination: Destination, ast: Intents.Asset, quantity: string, operationId: string,
                      exCtx: Option<ExecutionContext>, fate: Fate) returns (r: Result<()>)
      modifies this`ledgers
      ensures Attempted(r, ledgers) == Attempt(Env(), old(ledgers), Call(Custody.Release(source, destination, quantity, operationId), ast, None, exCtx, fate))
    {
      var env := Env();
      var token :- ResolveToken(ast);
      var address :- DestinationAddress(env, destination);
      var amount :- env.parseUnits(quantity, token.rec.decimals);
      var opCtx := BuildOperationContext(ast, None, exCtx, Some(operationId), Intents.ReleaseIt);
      r := AwaitCall(token.rec.contract, StdRelease(token.model, LedgerOf(ledgers, token.rec.contract), env.escrow, address, amount, opCtx), fate);
    }

    method Rollback(source: Source, ast: Intents.Asset, quantity: string, operationId: string, exCtx: Option<ExecutionContext>, fate: Fate)
      returns (receipt: Receipt)
      modifies this`ledgers
      ensures Served(receipt, ledgers) == Serve(Env(), old(ledgers), Call(Custody.Rollback(source, quantity, operationId), ast, None, exCtx, fate))
    {
      var done := TryRollback(source, ast, quantity, operationId, exCtx, fate);
      return if done.Err? then Failed(done.error) else Receipt(ReleaseReceipt, Some(source.finId), None, quantity, Some(operationId));
    }

    method TryRollback(source: Source, ast: Intents.Asset, quantity: string, operationId: string, exCtx: Option<ExecutionContext>, fate: Fate)
      returns (r: Result<()>)
      modifies this`ledgers
      ensures Attempted(r, ledgers) == Attempt(Env(), old(ledgers), Call(Custody.Rollback(source, quantity, operationId), ast, None, exCtx, fate))
    {
      var env := Env();
      var token :- ResolveToken(ast);
      var address :- ResolveAddress(env, source.finId);
      var amount :- env.parseUnits(quantity, token.rec.decimals);
      var opCtx := BuildOperationContext(ast, None, exCtx, Some(operationId), Intents.ReleaseIt);
      r := AwaitCall(token.rec.contract, StdRelease(token.model, LedgerOf(ledgers, token.rec.contract), env.escrow, address, amount, opCtx), fate);
    }
  }
}
