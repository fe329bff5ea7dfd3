/**
 ProductService: Update and Delete, each a read and a single statement outside any transaction.
 */
module ProductService {
  import opened Schema
  import opened OrderRules
  import opened Session

  class ProductService {
    const db: Session

    constructor (db: Session)
      ensures this.db == db
    {
      this.db := db;
    }

    method Update(edit: ProductEdit) returns (r: Result<Product>)
      modifies db`committed, db`lost, db`budget
      ensures ProductOutcome(db.committed, r) == EditOutcome(old(db.committed), edit)
           || (db.lost && ProductOutcome(db.committed, r) == ProductOutcome(old(db.committed), Err(StatementFailed)))
      ensures r.Err? ==> db.committed == old(db.committed)
      ensures r.Ok? ==>
                && edit.product in old(db.committed).products
                && var was := old(db.committed).products[edit.product];
                && (edit.role == SELLER ==> was.seller == Some(edit.caller))
                && r.value == Product(edit.price, edit.stock, edit.status, was.seller)
                && db.committed == old(db.committed).(products := old(db.committed).products[edit.product := r.value])
      ensures !old(db.lost) && old(db.budget) >= 2 ==> !db.lost
    {
      var ok, existing := db.GetProduct(edit.product);
      if !ok { return Err(StatementFailed); }
      if existing.None? { return Err(ProductNotFound(edit.product)); }
      if edit.role == SELLER && (existing.value.seller.None? || existing.value.seller.value != edit.caller) {
        return Err(AccessDenied);
      }
      r := db.UpdateProduct(edit.product, edit.price, edit.stock, edit.status);
    }

    method Delete(p: ProductId, caller: UserId, role: Role) returns (r: Result<Product>)
      modifies db`committed, db`lost, db`budget
      ensures ProductOutcome(db.committed, r) == ArchiveOutcome(old(db.committed), p, caller, role)
           || (db.lost && ProductOutcome(db.committed, r) == ProductOutcome(old(db.committed), Err(StatementFailed)))
      ensures r.Err? ==> db.committed == old(db.committed)
      ensures r.Ok? ==>
                && p in old(db.committed).products
                && var was := old(db.committed).products[p];
                && (role == SELLER ==> was.seller == Some(caller))
                && r.value == Product(was.price, was.stock, ARCHIVED, was.seller)
                && db.committed == old(db.committed).(products := old(db.committed).products[p := r.value])
      ensures !old(db.lost) && old(db.budget) >= 2 ==> !db.lost
    {
      var ok, existing := db.GetProduct(p);
      if !ok { return Err(StatementFailed); }
      if existing.None? { return Err(ProductNotFound(p)); }
      if role == SELLER && (existing.value.seller.None? || existing.value.seller.value != caller) {
        return Err(AccessDenied);
      }
      r := db.ArchiveProduct(p);
    }
  }
}
