/** The catalogue service: admin-gated create, update and soft delete, the
    public detail and listing, and the admin listing. Storage is the set of
    object keys; ids and clock readings are parameters. */
module ProductService {
  import opened Options
  import opened Grpc
  import opened Jwt
  import opened Entity
  import opened QueryBuilder
  import opened Repository
  import opened Text
  import Response

  const PermissionDeniedError: Error := Status(PermissionDenied, "Permission denied")

  const ImageMissingMessage: string := "Image file not found in storage. Please upload the image first."
  const NewImageMissingMessage: string := "New image file not found in storage. Please upload the image first."

  /** The check opening every admin operation: an identity must be present
      (else Unauthenticated) and must carry the admin role (else
      PermissionDenied). */
  function AdminGate(ctx: Context): (r: Result<Claims, Error>)
    ensures r.Success? <==> GetClaimsFromContext(ctx).Some? && GetClaimsFromContext(ctx).value.roleCode == UserRoleAdmin
    ensures GetClaimsFromContext(ctx).None? ==> r == Failure(Response.UnauthenticatedResponse())
    ensures GetClaimsFromContext(ctx).Some? && GetClaimsFromContext(ctx).value.roleCode != UserRoleAdmin ==>
              r == Failure(PermissionDeniedError)
    ensures r.Success? ==> r.value == GetClaimsFromContext(ctx).value
  {
    match GetClaimsFromContext(ctx)
    case None => Failure(Response.UnauthenticatedResponse())
    case Some(claims) =>
      if claims.roleCode != UserRoleAdmin then Failure(PermissionDeniedError) else Success(claims)
  }

  datatype CreateProductRequest = CreateProductRequest(name: string, description: string, price: real, imageFileName: string)
  datatype CreateProductResponse = CreateProductResponse(base: Response.BaseResponse, id: string)
  datatype UpdateProductRequest = UpdateProductRequest(id: string, name: string, description: string, price: real, imageFileName: string)
  datatype UpdateProductResponse = UpdateProductResponse(base: Response.BaseResponse, id: string)
  datatype DetailProductResponse = DetailProductResponse(
    base: Response.BaseResponse, id: string, name: string, description: string, price: real, imageUrl: string)

  datatype PaginationRequest = PaginationRequest(page: int32, limit: int32, sort: seq<SortRequest>)
  datatype PaginationResponse = PaginationResponse(page: int32, limit: int32, totalPages: int, totalElements: int)

  datatype ProductView = ProductView(id: string, name: string, description: string, price: real, imageUrl: string)
  datatype ProductAdminView = ProductAdminView(
    id: string, name: string, description: string, price: real, imageUrl: string,
    createdAt: int, createdBy: string, updatedAt: Option<int>, updatedBy: string,
    deletedAt: Option<int>, deletedBy: string, isDeleted: bool)

  datatype ListProductsResponse = ListProductsResponse(
    base: Response.BaseResponse, pagination: PaginationResponse, products: seq<ProductView>)
  datatype ListProductsAdminResponse = ListProductsAdminResponse(
    base: Response.BaseResponse, pagination: PaginationResponse, products: seq<ProductAdminView>)

  const DefaultPage: int32 := 1
  const DefaultLimit: int32 := 10
  const DefaultSort: seq<SortRequest> := [SortRequest("created_at", "DESC")]

  /** Page 0 means the first page, limit 0 means ten, no sort means newest
      first; any other value is kept as given. */
  function Normalized(p: PaginationRequest): (n: PaginationRequest)
    ensures n.page != 0 && n.limit != 0 && n.sort != []
    ensures p.page != 0 ==> n.page == p.page
    ensures p.limit != 0 ==> n.limit == p.limit
    ensures p.sort != [] ==> n.sort == p.sort
    ensures p.page == 0 ==> n.page == DefaultPage
    ensures p.limit == 0 ==> n.limit == DefaultLimit
    ensures p.sort == [] ==> n.sort == DefaultSort
  {
    PaginationRequest(
      if p.page == 0 then DefaultPage else p.page,
      if p.limit == 0 then DefaultLimit else p.limit,
      if p.sort == [] then DefaultSort else p.sort)
  }

  /** Integer ceiling division, with the bounds that characterise it. */
  lemma {:induction false} CeilingBounds(total: nat, limit: int)
    requires limit > 0
    ensures total == 0 ==> (total + limit - 1) / limit == 0
    ensures total > 0 ==> ((total + limit - 1) / limit - 1) * limit < total <= ((total + limit - 1) / limit) * limit
  {
    var q := (total + limit - 1) / limit;
    var m := (total + limit - 1) % limit;
    assert total + limit - 1 == q * limit + m && 0 <= m < limit;
    assert q * limit == total + limit - 1 - m;
    assert (q - 1) * limit == q * limit - limit;
  }

  /** The number of pages of `limit` items that hold `total` items: the
      least count whose capacity reaches `total`. */
  function TotalPages(total: nat, limit: int): (pages: nat)
    requires limit > 0
    ensures total == 0 ==> pages == 0
    ensures total > 0 ==> (pages - 1) * limit < total <= pages * limit
  {
    CeilingBounds(total, limit);
    (total + limit - 1) / limit
  }

  /** Where a stored image is served from. */
  function ImageUrl(domain: string, fileName: string): string
  {
    domain + "/" + fileName
  }

  function View(p: Product, domain: string): ProductView
  {
    ProductView(p.id, p.name, p.description, p.price, ImageUrl(domain, p.imageFileName))
  }

  /** A missing author stamp reads as the empty string. */
  function SafeDeref(s: Option<string>): string
  {
    if s.Some? then s.value else ""
  }

  function AdminView(p: Product, domain: string): ProductAdminView
  {
    ProductAdminView(p.id, p.name, p.description, p.price, ImageUrl(domain, p.imageFileName),
      p.createdAt, SafeDeref(p.createdBy), p.updatedAt, SafeDeref(p.updatedBy),
      p.deletedAt, SafeDeref(p.deletedBy), p.isDeleted)
  }

  /** The row an update writes: the request's fields and the update stamps,
      every other column as stored. */
  function Updated(p: Product, req: UpdateProductRequest, author: string, now: int): Product
  {
    p.(name := req.name, description := req.description, price := req.price,
       imageFileName := req.imageFileName, updatedAt := Some(now), updatedBy := Some(author))
  }

  /** The row a delete writes: the flag and the deletion stamps. */
  function SoftDeleted(p: Product, author: string, now: int): Product
  {
    p.(isDeleted := true, deletedAt := Some(now), deletedBy := Some(author))
  }

  /** The total-pages figure of a listing response. */
  function PageCount(total: nat, limit: int): nat
    requires total > 0 ==> limit > 0
  {
    if total == 0 then 0 else TotalPages(total, limit)
  }

  /** The response of a successful public listing: the envelope, the
      pagination figures and one view per fetched row, in order. */
  predicate PublicPage(resp: ListProductsResponse, n: PaginationRequest, rows: seq<Product>, total: nat, domain: string)
    requires total > 0 ==> n.limit > 0
  {
    && resp.base == Response.SuccessResponse("Products retrieved successfully")
    && resp.pagination == PaginationResponse(n.page, n.limit, PageCount(total, n.limit), total)
    && |resp.products| == |rows|
    && forall i :: 0 <= i < |rows| ==> resp.products[i] == View(rows[i], domain)
  }

  /** The same for the admin listing, with the audit views. */
  predicate AdminPage(resp: ListProductsAdminResponse, n: PaginationRequest, rows: seq<Product>, total: nat, domain: string)
    requires total > 0 ==> n.limit > 0
  {
    && resp.base == Response.SuccessResponse("Products retrieved successfully")
    && resp.pagination == PaginationResponse(n.page, n.limit, PageCount(total, n.limit), total)
    && |resp.products| == |rows|
    && forall i :: 0 <= i < |rows| ==> resp.products[i] == AdminView(rows[i], domain)
  }

  /** The public listing's conversion loop: one view per fetched row, in
      order. */
  method ProductViews(products: seq<Product>, domain: string) returns (productsData: seq<ProductView>)
    ensures |productsData| == |products|
    ensures forall k :: 0 <= k < |products| ==> productsData[k] == View(products[k], domain)
  {
    productsData := [];
    for i := 0 to |products|
      invariant |productsData| == i
      invariant forall k :: 0 <= k < i ==> productsData[k] == View(products[k], domain)
    {
      productsData := productsData + [View(products[i], domain)];
    }
  }

  /** The admin listing's conversion loop, with the audit views. */
  method AdminProductViews(products: seq<Product>, domain: string) returns (productsData: seq<ProductAdminView>)
    ensures |productsData| == |products|
    ensures forall k :: 0 <= k < |products| ==> productsData[k] == AdminView(products[k], domain)
  {
    productsData := [];
    for i := 0 to |products|
      invariant |productsData| == i
      invariant forall k :: 0 <= k < i ==> productsData[k] == AdminView(products[k], domain)
    {
      productsData := productsData + [AdminView(products[i], domain)];
    }
  }

  /** The success half of the public listing: page count, conversion loop
      and envelope. */
  method PublicListing(n: PaginationRequest, products: seq<Product>, totalElements: nat, domain: string)
    returns (resp: ListProductsResponse)
    requires totalElements > 0 ==> n.limit > 0
    ensures PublicPage(resp, n, products, totalElements, domain)
  {
    var totalPages := 0;
    if totalElements != 0 {
      totalPages := TotalPages(totalElements, n.limit);
    }
    var productsData := ProductViews(products, domain);
    resp := ListProductsResponse(Response.SuccessResponse("Products retrieved successfully"),
                                 PaginationResponse(n.page, n.limit, totalPages, totalElements), productsData);
  }

  /** The same for the admin listing. */
  method AdminListing(n: PaginationRequest, products: seq<Product>, totalElements: nat, domain: string)
    returns (resp: ListProductsAdminResponse)
    requires totalElements > 0 ==> n.limit > 0
    ensures AdminPage(resp, n, products, totalElements, domain)
  {
    var totalPages := 0;
    if totalElements != 0 {
      totalPages := TotalPages(totalElements, n.limit);
    }
    var productsData := AdminProductViews(products, domain);
    resp := ListProductsAdminResponse(Response.SuccessResponse("Products retrieved successfully"),
                                      PaginationResponse(n.page, n.limit, totalPages, totalElements), productsData);
  }

  class ProductService {
    const table: ProductTable
    const storage: ObjectStore

    constructor(table: ProductTable, storage: ObjectStore)
      ensures this.table == table && this.storage == storage
    {
      this.table := table;
      this.storage := storage;
    }

    /** Admin only; the image must already be in storage. */
    method CreateProduct(ctx: Context, req: CreateProductRequest, newId: string, now: int)
      returns (r: Result<CreateProductResponse, Error>)
      requires table.Valid()
      modifies table
      ensures table.Valid()
      ensures AdminGate(ctx).Failure? ==> r == Failure(AdminGate(ctx).error) && table.rows == old(table.rows)
      ensures AdminGate(ctx).Success? && req.imageFileName !in storage.keys ==>
                && r == Success(CreateProductResponse(Response.BadRequestResponse(ImageMissingMessage), ""))
                && table.rows == old(table.rows)
      ensures AdminGate(ctx).Success? && req.imageFileName in storage.keys && newId in old(table.rows) ==>
                r == Failure(DuplicateKeyError) && table.rows == old(table.rows)
      ensures AdminGate(ctx).Success? && req.imageFileName in storage.keys && newId !in old(table.rows) ==>
                && r == Success(CreateProductResponse(Response.SuccessResponse("Product created successfully"), newId))
                && table.rows == old(table.rows)[newId := Product(newId, req.name, req.description, req.price,
                     req.imageFileName, now, Some(AdminGate(ctx).value.fullName), None, None, None, None, false)]
    {
      var gate := AdminGate(ctx);
      if gate.Failure? {
        return Failure(gate.error);
      }
      var claims := gate.value;
      var inStorage := req.imageFileName in storage.keys;
      if !inStorage {
        return Success(CreateProductResponse(Response.BadRequestResponse(ImageMissingMessage), ""));
      }
      var newProduct := Product(newId, req.name, req.description, req.price, req.imageFileName,
                                now, Some(claims.fullName), None, None, None, None, false);
      if newId in table.rows {
        return Failure(DuplicateKeyError);
      }
      table.rows := table.rows[newId := newProduct];
      r := Success(CreateProductResponse(Response.SuccessResponse("Product created successfully"), newId));
    }

    /** Public: one live product, or a not-found envelope. */
    method DetailProduct(id: string, domain: string) returns (r: DetailProductResponse)
      ensures GetProductById(table.rows, id).None? ==>
                r == DetailProductResponse(Response.NotFoundResponse("Product not found"), "", "", "", 0.0, "")
      ensures GetProductById(table.rows, id).Some? ==>
                && r.base == Response.SuccessResponse("Product retrieved successfully")
                && var p := table.rows[id];
                   r.id == p.id && r.name == p.name && r.description == p.description &&
                   r.price == p.price && r.imageUrl == ImageUrl(domain, p.imageFileName)
    {
      var found := GetProductById(table.rows, id);
      if found.None? {
        return DetailProductResponse(Response.NotFoundResponse("Product not found"), "", "", "", 0.0, "");
      }
      var p := found.value;
      r := DetailProductResponse(Response.SuccessResponse("Product retrieved successfully"),
                                 p.id, p.name, p.description, p.price, ImageUrl(domain, p.imageFileName));
    }

    /** Admin only. Storage is looked at only when the image name changes;
        a changed image must exist, and the old non-empty image is then
        removed (a failed removal would not stop the update). */
    method UpdateProduct(ctx: Context, req: UpdateProductRequest, now: int)
      returns (r: Result<UpdateProductResponse, Error>)
      requires table.Valid()
      modifies table, storage
      ensures table.Valid()
      ensures AdminGate(ctx).Failure? ==>
                && r == Failure(AdminGate(ctx).error)
                && table.rows == old(table.rows) && storage.keys == old(storage.keys)
      ensures AdminGate(ctx).Success? && GetProductById(old(table.rows), req.id).None? ==>
                && r == Success(UpdateProductResponse(Response.NotFoundResponse("Product not found"), ""))
                && table.rows == old(table.rows) && storage.keys == old(storage.keys)
      ensures AdminGate(ctx).Success? && GetProductById(old(table.rows), req.id).Some? ==>
                var p := old(table.rows)[req.id];
                var changed := req.imageFileName != p.imageFileName;
                && (changed && req.imageFileName !in old(storage.keys) ==>
                     && r == Success(UpdateProductResponse(Response.NotFoundResponse(NewImageMissingMessage), ""))
                     && table.rows == old(table.rows) && storage.keys == old(storage.keys))
                && (!changed || req.imageFileName in old(storage.keys) ==>
                     && r == Success(UpdateProductResponse(Response.SuccessResponse("Product updated successfully"), req.id))
                     && table.rows == old(table.rows)[req.id := Updated(p, req, AdminGate(ctx).value.fullName, now)]
                     && storage.keys == if changed && p.imageFileName != ""
                                        then old(storage.keys) - {p.imageFileName} else old(storage.keys))
    {
      var gate := AdminGate(ctx);
      if gate.Failure? {
        return Failure(gate.error);
      }
      var claims := gate.value;
      var found := GetProductById(table.rows, req.id);
      if found.None? {
        return Success(UpdateProductResponse(Response.NotFoundResponse("Product not found"), ""));
      }
      var productData := found.value;
      if req.imageFileName != productData.imageFileName {
        var inStorage := req.imageFileName in storage.keys;
        if !inStorage {
          return Success(UpdateProductResponse(Response.NotFoundResponse(NewImageMissingMessage), ""));
        }
        if productData.imageFileName != "" {
          storage.keys := storage.keys - {productData.imageFileName};
        }
      }
      productData := Updated(productData, req, claims.fullName, now);
      table.rows := table.rows[req.id := productData];
      r := Success(UpdateProductResponse(Response.SuccessResponse("Product updated successfully"), productData.id));
    }

    /** Admin only. The row stays, flagged deleted; its non-empty image is
        removed from storage afterwards. */
    method DeleteProduct(ctx: Context, id: string, now: int) returns (r: Result<Response.BaseResponse, Error>)
      requires table.Valid()
      modifies table, storage
      ensures table.Valid()
      ensures AdminGate(ctx).Failure? ==>
                && r == Failure(AdminGate(ctx).error)
                && table.rows == old(table.rows) && storage.keys == old(storage.keys)
      ensures AdminGate(ctx).Success? && GetProductById(old(table.rows), id).None? ==>
                && r == Success(Response.NotFoundResponse("Product not found"))
                && table.rows == old(table.rows) && storage.keys == old(storage.keys)
      ensures AdminGate(ctx).Success? && GetProductById(old(table.rows), id).Some? ==>
                var p := old(table.rows)[id];
                && r == Success(Response.SuccessResponse("Product deleted successfully"))
                && table.rows == old(table.rows)[id := SoftDeleted(p, AdminGate(ctx).value.fullName, now)]
                && storage.keys == if p.imageFileName != "" then old(storage.keys) - {p.imageFileName}
                                   else old(storage.keys)
    {
      var gate := AdminGate(ctx);
      if gate.Failure? {
        return Failure(gate.error);
      }
      var claims := gate.value;
      var found := GetProductById(table.rows, id);
      if found.None? {
        return Success(Response.NotFoundResponse("Product not found"));
      }
      var productData := found.value;
      productData := SoftDeleted(productData, claims.fullName, now);
      table.rows := table.rows[id := productData];
      if productData.imageFileName != "" {
        storage.keys := storage.keys - {productData.imageFileName};
      }
      r := Success(Response.SuccessResponse("Product deleted successfully"));
    }

    /** The public listing, parametrised by the allow-list the repository
        checks the sort against. */
    method ListPublic(pagination: PaginationRequest, ordered: seq<string>, domain: string,
                      allowed: map<string, bool>)
      returns (r: Result<ListProductsResponse, Error>)
      requires forall i :: 0 <= i < |ordered| ==> ordered[i] in table.rows
      ensures var n := Normalized(pagination);
              var q := ListQuery(Live(Arranged(ordered, table.rows)), n.page, n.limit, n.sort, allowed);
              && (q.Failure? ==> r == Failure(q.error))
              && (q.Success? ==> r.Success? && PublicPage(r.value, n, q.value.products, q.value.total, domain))
    {
      var page := pagination.page;
      var limit := pagination.limit;
      var sort := pagination.sort;
      if page == 0 {
        page := DefaultPage;
      }
      if limit == 0 {
        limit := DefaultLimit;
      }
      if |sort| == 0 {
        sort := DefaultSort;
      }
      ghost var n := Normalized(pagination);
      assert page == n.page && limit == n.limit && sort == n.sort;
      var q := ListQuery(Live(Arranged(ordered, table.rows)), page, limit, sort, allowed);
      if q.Failure? {
        return Failure(q.error);
      }
      var resp := PublicListing(PaginationRequest(page, limit, sort), q.value.products, q.value.total, domain);
      r := Success(resp);
    }

    /** Public listing of live products, as the service is written: the
        repository's public allow-list lacks the created_at column the
        service sorts by when the caller gives no sort, so such a request
        fails as soon as one product is live. `ordered` is how the database
        arranges the table's keys for the requested clause. */
    method ListProducts(pagination: PaginationRequest, ordered: seq<string>, domain: string)
      returns (r: Result<ListProductsResponse, Error>)
      requires ListsEveryKeyOnce(ordered, table.rows)
      ensures var n := Normalized(pagination);
              var q := ListQuery(Live(Arranged(ordered, table.rows)), n.page, n.limit, n.sort,
                                 PublicSortFieldsAsWritten);
              && (q.Failure? ==> r == Failure(q.error))
              && (q.Success? ==> r.Success? && PublicPage(r.value, n, q.value.products, q.value.total, domain))
      ensures r.Success? ==> r.value.pagination.totalElements == |LiveKeys(table.rows)|
      ensures pagination.sort == [] && LiveKeys(table.rows) != {} ==>
                r == Failure(Plain("invalid sort parameter"))
    {
      r := ListPublic(pagination, ordered, domain, PublicSortFieldsAsWritten);
      LiveListingCount(ordered, table.rows);
      if pagination.sort == [] && LiveKeys(table.rows) != {} {
        ListingWithoutSortFailsAsWritten(Arranged(ordered, table.rows), pagination);
      }
    }

    /** The public listing with created_at on the allow-list: a request
        without a sort then lists the newest products first. */
    method ListProductsCorrected(pagination: PaginationRequest, ordered: seq<string>, domain: string)
      returns (r: Result<ListProductsResponse, Error>)
      requires ListsEveryKeyOnce(ordered, table.rows)
      ensures var n := Normalized(pagination);
              var q := ListQuery(Live(Arranged(ordered, table.rows)), n.page, n.limit, n.sort, PublicSortFields);
              && (q.Failure? ==> r == Failure(q.error))
              && (q.Success? ==> r.Success? && PublicPage(r.value, n, q.value.products, q.value.total, domain))
      ensures r.Success? ==> r.value.pagination.totalElements == |LiveKeys(table.rows)|
      ensures var n := Normalized(pagination);
              pagination.sort == [] && n.limit >= 0 && Offset(n.page, n.limit) >= 0 ==> r.Success?
    {
      r := ListPublic(pagination, ordered, domain, PublicSortFields);
      LiveListingCount(ordered, table.rows);
      ghost var n := Normalized(pagination);
      if pagination.sort == [] && n.limit >= 0 && Offset(n.page, n.limit) >= 0 {
        ListingWithoutSortSucceeds(Arranged(ordered, table.rows), pagination);
      }
    }

    /** The admin listing after the role check: every row, deleted ones
        included, with the audit columns. */
    method ListAll(pagination: PaginationRequest, ordered: seq<string>, domain: string)
      returns (r: Result<ListProductsAdminResponse, Error>)
      requires forall i :: 0 <= i < |ordered| ==> ordered[i] in table.rows
      ensures var n := Normalized(pagination);
              var q := ListQuery(Arranged(ordered, table.rows), n.page, n.limit, n.sort, AdminSortFields);
              && (q.Failure? ==> r == Failure(q.error))
              && (q.Success? ==> r.Success? && AdminPage(r.value, n, q.value.products, q.value.total, domain))
    {
      var page := pagination.page;
      var limit := pagination.limit;
      var sort := pagination.sort;
      if page == 0 {
        page := DefaultPage;
      }
      if limit == 0 {
        limit := DefaultLimit;
      }
      if |sort| == 0 {
        sort := DefaultSort;
      }
      ghost var n := Normalized(pagination);
      assert page == n.page && limit == n.limit && sort == n.sort;
      var q := ListQuery(Arranged(ordered, table.rows), page, limit, sort, AdminSortFields);
      if q.Failure? {
        return Failure(q.error);
      }
      var resp := AdminListing(PaginationRequest(page, limit, sort), q.value.products, q.value.total, domain);
      r := Success(resp);
    }

    /** Admin listing: the role check, then every row with the audit
        columns; the total is the number of rows in the table. */
    method ListProductsAdmin(ctx: Context, pagination: PaginationRequest, ordered: seq<string>, domain: string)
      returns (r: Result<ListProductsAdminResponse, Error>)
      requires ListsEveryKeyOnce(ordered, table.rows)
      ensures AdminGate(ctx).Failure? ==> r == Failure(AdminGate(ctx).error)
      ensures r.Success? ==> r.value.pagination.totalElements == |table.rows|
      ensures AdminGate(ctx).Success? ==>
              var n := Normalized(pagination);
              var q := ListQuery(Arranged(ordered, table.rows), n.page, n.limit, n.sort, AdminSortFields);
              && (q.Failure? ==> r == Failure(q.error))
              && (q.Success? ==> r.Success? && AdminPage(r.value, n, q.value.products, q.value.total, domain))
    {
      var gate := AdminGate(ctx);
      if gate.Failure? {
        return Failure(gate.error);
      }
      r := ListAll(pagination, ordered, domain);
      ArrangedCount(ordered, table.rows);
    }
  }

  /** A soft-deleted product is hidden from every later lookup, so a second
      delete or an update of it finds nothing, while its row stays. */
  lemma SoftDeleteHides(rows: map<string, Product>, id: string, author: string, now: int)
    requires id in rows
    ensures GetProductById(rows[id := SoftDeleted(rows[id], author, now)], id).None?
    ensures id in rows[id := SoftDeleted(rows[id], author, now)]
  {
  }

  /** The public listing as written: when the caller gives no sort and at
      least one product is live, the injected created_at sort is not on the
      public allow-list and the listing fails. */
  lemma {:induction false} ListingWithoutSortFailsAsWritten(rows: seq<Product>, p: PaginationRequest)
    requires Live(rows) != [] && p.sort == []
    ensures ListQuery(Live(rows), Normalized(p).page, Normalized(p).limit, Normalized(p).sort,
                      PublicSortFieldsAsWritten).Failure?
  {
    assert Lower("created_at") == "created_at";
    assert !Allowed(PublicSortFieldsAsWritten, Lower(DefaultSort[0].field));
  }

  /** With created_at on the allow-list, a listing without a sort succeeds
      whenever its limit and offset are not negative, whatever is stored. */
  lemma {:induction false} ListingWithoutSortSucceeds(rows: seq<Product>, p: PaginationRequest)
    requires p.sort == []
    requires Normalized(p).limit >= 0 && Offset(Normalized(p).page, Normalized(p).limit) >= 0
    ensures ListQuery(Live(rows), Normalized(p).page, Normalized(p).limit, Normalized(p).sort,
                      PublicSortFields).Success?
  {
    assert Lower("created_at") == "created_at";
    assert Allowed(PublicSortFields, Lower(DefaultSort[0].field));
    assert FirstDisallowed(DefaultSort, PublicSortFields).None?;
  }
}
