/**
 * UnitOfWork: the repository handles it was built with, the context it saves through, and
 * its current transaction, which BeginTransactionAsync sets and CommitTransactionAsync and
 * RollbackTransactionAsync finish and clear. The database context and its transaction are
 * objects whose only modelled state is whether they are finished or disposed.
 */
module UnitOfWork {

  /** Where a database transaction stands. */
  datatype TxOutcome = Open | Committed | RolledBack

  /**
   * An IDbContextTransaction, started on its owner context. Finishing or disposing it
   * clears the owner's current transaction when it is the current one.
   */
  class Transaction {
    const owner: DbContext
    var outcome: TxOutcome
    var disposed: bool

    constructor(owner: DbContext)
      ensures this.owner == owner && outcome == Open && !disposed
    {
      this.owner := owner;
      outcome, disposed := Open, false;
    }

    /**
     * CommitAsync. When the database fails it (fails), the call throws and neither the
     * transaction nor its owner's current transaction changes.
     */
    method Commit(fails: bool)
      requires outcome == Open && !disposed
      modifies this, owner
      ensures fails ==> outcome == Open && owner.current == old(owner.current)
      ensures !fails ==> outcome == Committed
      ensures !fails ==> owner.current == (if old(owner.current) == this then null else old(owner.current))
      ensures disposed == old(disposed) && owner.disposed == old(owner.disposed)
    {
      if !fails {
        outcome := Committed;
        if owner.current == this {
          owner.current := null;
        }
      }
    }

    /**
     * RollbackAsync. When the database fails it (fails), the call throws and neither the
     * transaction nor its owner's current transaction changes.
     */
    method Rollback(fails: bool)
      requires outcome == Open && !disposed
      modifies this, owner
      ensures fails ==> outcome == Open && owner.current == old(owner.current)
      ensures !fails ==> outcome == RolledBack
      ensures !fails ==> owner.current == (if old(owner.current) == this then null else old(owner.current))
      ensures disposed == old(disposed) && owner.disposed == old(owner.disposed)
    {
      if !fails {
        outcome := RolledBack;
        if owner.current == this {
          owner.current := null;
        }
      }
    }

    /** Dispose and DisposeAsync */
    method Dispose()
      modifies this, owner
      ensures disposed && outcome == old(outcome)
      ensures owner.current == (if old(owner.current) == this then null else old(owner.current))
      ensures owner.disposed == old(owner.disposed)
    {
      disposed := true;
      if owner.current == this {
        owner.current := null;
      }
    }
  }

  /** The WebberDbContext, as far as the unit of work uses it: Database.CurrentTransaction and disposal. */
  class DbContext {
    var disposed: bool
    var current: Transaction?

    constructor()
      ensures !disposed && current == null
    {
      disposed, current := false, null;
    }

    /**
     * Database.BeginTransactionAsync on a relational provider: with a transaction already
     * current it throws InvalidOperationException, and when the database fails the call
     * (fails) it throws too; either way it returns null and changes nothing. Otherwise a
     * new, open transaction becomes current.
     */
    method BeginTransaction(fails: bool) returns (t: Transaction?)
      requires !disposed
      modifies this
      ensures disposed == old(disposed)
      ensures t == null <==> old(current) != null || fails
      ensures t == null ==> current == old(current)
      ensures t != null ==> fresh(t) && t.owner == this && t.outcome == Open && !t.disposed && current == t
    {
      if current != null || fails {
        t := null;
      } else {
        t := new Transaction(this);
        current := t;
      }
    }

    method Dispose()
      modifies this
      ensures disposed && current == old(current)
    {
      disposed := true;
    }
  }

  /** The twelve repositories, each an opaque handle. */
  datatype Repositories = Repositories(
    cartItems: nat, carts: nat, categories: nat, orders: nat, orderHistory: nat, products: nat,
    inventories: nat, refreshTokens: nat, reviews: nat, coupons: nat, roles: nat, users: nat)

  class UnitOfWork {
    /** Get-only properties initialised from the constructor: never reassigned. */
    const repositories: Repositories
    const context: DbContext
    var transaction: Transaction?

    /**
     * A usable unit of work: its context is live, and a transaction it holds is open and is
     * the context's current one.
     */
    predicate Valid()
      reads this, context, transaction
    {
      && !context.disposed
      && (transaction != null ==>
            transaction.outcome == Open && !transaction.disposed && transaction.owner == context && context.current == transaction)
    }

    constructor(context: DbContext, repositories: Repositories)
      requires !context.disposed
      ensures this.context == context && this.repositories == repositories
      ensures transaction == null && Valid()
    {
      this.context := context;
      this.repositories := repositories;
      transaction := null;
    }

    /** SaveChangesAsync, given the number of rows context.SaveChangesAsync reports written. */
    method SaveChanges(affected: int) returns (saved: bool)
      ensures saved <==> affected > 0
    {
      saved := affected > 0;
    }

    /**
     * BeginTransactionAsync: the context's new transaction becomes current. When the context
     * refuses because a transaction is already current, or the database fails the call, the
     * exception escapes before the assignment, so the unit keeps the transaction it had.
     */
    method BeginTransaction(fails: bool) returns (refused: bool)
      requires Valid()
      modifies this, context
      ensures Valid()
      ensures refused <==> old(context.current) != null || fails
      ensures refused ==> transaction == old(transaction) && context.current == old(context.current)
      ensures !refused ==> transaction != null && fresh(transaction) && context.current == transaction
      ensures old(transaction) != null ==> unchanged(old(transaction))
    {
      var t := context.BeginTransaction(fails);
      if t == null {
        refused := true;
      } else {
        refused := false;
        transaction := t;
      }
    }

    /**
     * CommitTransactionAsync: commits and disposes the current transaction, if any, and clears
     * it. When CommitAsync throws (fails), the Dispose and the clearing are skipped: the
     * unit keeps its open, undisposed transaction, still current in the context.
     */
    method CommitTransaction(fails: bool)
      requires Valid()
      modifies this, transaction, context
      ensures Valid()
      ensures old(transaction) == null ==> transaction == null && context.current == old(context.current)
      ensures old(transaction) != null && !fails ==>
        && transaction == null && context.current == null
        && old(transaction).outcome == Committed && old(transaction).disposed
      ensures old(transaction) != null && fails ==>
        && transaction == old(transaction) && context.current == transaction
        && transaction.outcome == Open && !transaction.disposed
    {
      if transaction != null {
        transaction.Commit(fails);
        if !fails {
          transaction.Dispose();
          transaction := null;
        }
      }
    }

    /**
     * RollbackTransactionAsync: rolls back and disposes the current transaction, if any, and clears
     * it. When RollbackAsync throws (fails), the Dispose and the clearing are skipped: the
     * unit keeps its open, undisposed transaction, still current in the context.
     */
    method RollbackTransaction(fails: bool)
      requires Valid()
      modifies this, transaction, context
      ensures Valid()
      ensures old(transaction) == null ==> transaction == null && context.current == old(context.current)
      ensures old(transaction) != null && !fails ==>
        && transaction == null && context.current == null
        && old(transaction).outcome == RolledBack && old(transaction).disposed
      ensures old(transaction) != null && fails ==>
        && transaction == old(transaction) && context.current == transaction
        && transaction.outcome == Open && !transaction.disposed
    {
      if transaction != null {
        transaction.Rollback(fails);
        if !fails {
          transaction.Dispose();
          transaction := null;
        }
      }
    }

    /**
     * Dispose: disposes the current transaction, if any, then the context. The field keeps
     * pointing at the disposed transaction, and an open one is not committed.
     */
    method Dispose()
      modifies transaction, context, if transaction == null then {} else {transaction.owner}
      ensures transaction == old(transaction) && context.disposed
      ensures transaction != null ==> transaction.disposed && transaction.outcome == old(transaction.outcome)
    {
      if transaction != null {
        transaction.Dispose();
      }
      context.Dispose();
    }
  }

  /**
   * A transaction is finished at most once: once committed, a later rollback finds no
   * current transaction and leaves the committed one as it is, and so does a second commit,
   * whatever the database would do with them.
   */
  method CommitThenRollback(u: UnitOfWork, rollbackFails: bool, secondCommitFails: bool)
    requires u.Valid() && u.transaction != null
    modifies u, u.transaction, u.context
    ensures u.Valid() && u.transaction == null
    ensures old(u.transaction).outcome == Committed && old(u.transaction).disposed
  {
    var t := u.transaction;
    u.CommitTransaction(false);
    u.RollbackTransaction(rollbackFails);
    u.CommitTransaction(secondCommitFails);
    assert t.outcome == Committed;
  }

  /**
   * The recovery path: a commit that throws leaves the transaction current, so the
   * rollback that follows rolls it back, disposes it and clears it.
   */
  method CommitFailsThenRollback(u: UnitOfWork)
    requires u.Valid() && u.transaction != null
    modifies u, u.transaction, u.context
    ensures u.Valid() && u.transaction == null && u.context.current == null
    ensures old(u.transaction).outcome == RolledBack && old(u.transaction).disposed
  {
    u.CommitTransaction(true);
    u.RollbackTransaction(false);
  }

  /**
   * Beginning twice: the second begin is refused while the first transaction is current,
   * whatever the database would do, the unit keeps the first, and the following commit
   * finishes it.
   */
  method BeginTwice(u: UnitOfWork, secondFails: bool) returns (first: Transaction, secondRefused: bool)
    requires u.Valid() && u.context.current == null
    modifies u, u.context
    ensures secondRefused
    ensures first.outcome == Committed && first.disposed
    ensures u.Valid() && u.transaction == null && u.context.current == null
  {
    var firstRefused := u.BeginTransaction(false);
    first := u.transaction;
    secondRefused := u.BeginTransaction(secondFails);
    assert u.transaction == first;
    u.CommitTransaction(false);
  }
}
