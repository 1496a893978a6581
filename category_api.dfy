/**
 * The decision logic of the catalog category handlers. `existing` is the set of ids of the
 * categories in storage, which the parent lookups consult; the child and product counts of
 * a delete are parameters.
 */
module CategoryApi {
  import opened Wrappers
  import opened Responses
  import opened Categories
  import Text

  /**
   * `CreateCategory`: binding, the request validator, the parent lookup when a parent is
   * named, then a new record with the request's name, description and parent link;
   * `isActive` and `sortOrder` are set only when supplied and otherwise keep Go's zero value.
   */
  method CreateCategory(req: CreateCategoryRequest, existing: set<nat>)
    returns (r: Result<Category, ApiError>)
    ensures !CreateCategoryRequestBinds(req) ==> r == Failure(InvalidBody)
    ensures CreateCategoryRequestBinds(req) && ValidateCreateCategoryRequest(req).Fail? ==>
      r == Failure(BadRequest(ValidateCreateCategoryRequest(req).error))
    ensures (CreateCategoryRequestBinds(req) && ValidateCreateCategoryRequest(req).Pass?
      && req.parentId.Some? && req.parentId.value !in existing) ==>
      r == Failure(BadRequest("Parent category not found"))
    ensures r.Success? <==>
      CreateCategoryRequestBinds(req) && ValidateCreateCategoryRequest(req).Pass?
      && (req.parentId.Some? ==> req.parentId.value in existing)
    ensures r.Success? ==>
      && r.value.id == 0
      && r.value.name == req.name && r.value.description == req.description
      && r.value.parentId == req.parentId
      && r.value.parent == None && r.value.children == []
      && r.value.isActive == (if req.isActive.Some? then req.isActive.value else false)
      && r.value.sortOrder == (if req.sortOrder.Some? then req.sortOrder.value else 0)
  {
    if !CreateCategoryRequestBinds(req) {
      return Failure(InvalidBody);
    }
    var check := ValidateCreateCategoryRequest(req);
    if check.Fail? {
      return Failure(BadRequest(check.error));
    }
    if req.parentId.Some? && req.parentId.value !in existing {
      return Failure(BadRequest("Parent category not found"));
    }
    var category := Category(0, req.name, req.description, req.parentId, None, [], false, 0);
    if req.isActive.Some? {
      category := category.(isActive := req.isActive.value);
    }
    if req.sortOrder.Some? {
      category := category.(sortOrder := req.sortOrder.value);
    }
    r := Success(category);
  }

  /** A created category passes the record validator once storage gives it an id other than its parent's. */
  lemma CreatedCategoryIsValid(req: CreateCategoryRequest, id: nat)
    requires ValidateCreateCategoryRequest(req).Pass?
    requires req.parentId != Some(id)
    ensures ValidateCategory(Category(id, req.name, req.description, req.parentId, None, [], false, 0)).Pass?
  {
  }

  /**
   * The field rule of `UpdateCategory`: a non-empty name or description and a supplied
   * parent, active flag or sort order overwrite the stored value.
   */
  function PatchCategory(c: Category, req: UpdateCategoryRequest): Category {
    c.(
      name := if req.name != "" then req.name else c.name,
      description := if req.description != "" then req.description else c.description,
      parentId := if req.parentId.Some? then req.parentId else c.parentId,
      isActive := if req.isActive.Some? then req.isActive.value else c.isActive,
      sortOrder := if req.sortOrder.Some? then req.sortOrder.value else c.sortOrder)
  }

  /**
   * `UpdateCategory`: not found, then the request validator, then the self-parent guard,
   * then the parent lookup, then the patch.
   */
  method UpdateCategory(found: Option<Category>, req: UpdateCategoryRequest, existing: set<nat>)
    returns (r: Result<Category, ApiError>)
    ensures found.None? ==> r == Failure(NotFound("Category not found"))
    ensures found.Some? && ValidateUpdateCategoryRequest(req).Fail? ==>
      r == Failure(BadRequest(ValidateUpdateCategoryRequest(req).error))
    ensures found.Some? && ValidateUpdateCategoryRequest(req).Pass? && req.parentId == Some(found.value.id) ==>
      r == Failure(BadRequest("Category cannot be its own parent"))
    ensures (found.Some? && ValidateUpdateCategoryRequest(req).Pass? && req.parentId != Some(found.value.id)
      && req.parentId.Some? && req.parentId.value !in existing) ==>
      r == Failure(BadRequest("Parent category not found"))
    ensures r.Success? <==>
      found.Some? && ValidateUpdateCategoryRequest(req).Pass? && req.parentId != Some(found.value.id)
      && (req.parentId.Some? ==> req.parentId.value in existing)
    ensures r.Success? ==> r.value == PatchCategory(found.value, req)
  {
    if found.None? {
      return Failure(NotFound("Category not found"));
    }
    var category := found.value;
    var check := ValidateUpdateCategoryRequest(req);
    if check.Fail? {
      return Failure(BadRequest(check.error));
    }
    if req.parentId.Some? && req.parentId.value == category.id {
      return Failure(BadRequest("Category cannot be its own parent"));
    }
    if req.parentId.Some? && req.parentId.value !in existing {
      return Failure(BadRequest("Parent category not found"));
    }
    if req.name != "" {
      category := category.(name := req.name);
    }
    if req.description != "" {
      category := category.(description := req.description);
    }
    if req.parentId.Some? {
      category := category.(parentId := req.parentId);
    }
    if req.isActive.Some? {
      category := category.(isActive := req.isActive.value);
    }
    if req.sortOrder.Some? {
      category := category.(sortOrder := req.sortOrder.value);
    }
    r := Success(category);
  }

  /**
   * An update can never make a category a root: a stored parent link survives every patch,
   * and the id, children and loaded parent are untouched.
   */
  lemma UpdateNeverMakesRoot(c: Category, req: UpdateCategoryRequest)
    ensures var p := PatchCategory(c, req);
      && (!IsRoot(c) ==> !IsRoot(p))
      && p.id == c.id && p.children == c.children && p.parent == c.parent
  {
  }

  /** With nothing supplied the patch is the identity, and supplied fields always win. */
  lemma PatchCategoryFields(c: Category, req: UpdateCategoryRequest)
    ensures PatchCategory(c, UpdateCategoryRequest("", "", None, None, None)) == c
    ensures req.parentId.Some? ==> PatchCategory(c, req).parentId == req.parentId
    ensures req.isActive.Some? ==> PatchCategory(c, req).isActive == req.isActive.value
    ensures req.sortOrder.Some? ==> PatchCategory(c, req).sortOrder == req.sortOrder.value
    ensures PatchCategory(PatchCategory(c, req), req) == PatchCategory(c, req)
  {
  }

  /**
   * A patch that passes the handler's guards keeps a valid category valid provided the new
   * name is not whitespace only: the self-parent guard is what preserves the record check.
   */
  lemma GuardedPatchKeepsCategoryValid(c: Category, req: UpdateCategoryRequest)
    requires ValidateCategory(c).Pass?
    requires ValidateUpdateCategoryRequest(req).Pass? && req.parentId != Some(c.id)
    requires req.name == "" || !Text.IsBlank(req.name)
    ensures ValidateCategory(PatchCategory(c, req)).Pass?
  {
  }

  /**
   * `DeleteCategory`: not found; then child categories block the delete, before products are
   * counted; then products block it; otherwise it succeeds. When the counts are those of the
   * loaded children, the child guard is exactly `HasChildren`.
   */
  method DeleteCategory(found: Option<Category>, childCount: nat, productCount: nat)
    returns (r: Result<string, ApiError>)
    ensures found.None? ==> r == Failure(NotFound("Category not found"))
    ensures found.Some? && childCount > 0 ==>
      r == Failure(Blocked("Cannot delete category with child categories", "child_count", childCount))
    ensures found.Some? && childCount == 0 && productCount > 0 ==>
      r == Failure(Blocked("Cannot delete category with existing products", "product_count", productCount))
    ensures r.Success? <==> found.Some? && childCount == 0 && productCount == 0
    ensures r.Success? ==> r.value == "Category deleted successfully"
    ensures found.Some? && childCount == |found.value.children| ==>
      (r.Failure? && r.error.Blocked? && r.error.countField == "child_count" <==> HasChildren(found.value))
  {
    if found.None? {
      return Failure(NotFound("Category not found"));
    }
    if childCount > 0 {
      return Failure(Blocked("Cannot delete category with child categories", "child_count", childCount));
    }
    if productCount > 0 {
      return Failure(Blocked("Cannot delete category with existing products", "product_count", productCount));
    }
    r := Success("Category deleted successfully");
  }

  /**
   * `MoveCategory`: not found; the move validator; the new parent's lookup when one is
   * named; then the parent link is replaced by the request's, which may be none.
   */
  method MoveCategory(found: Option<Category>, req: MoveCategoryRequest, existing: set<nat>)
    returns (r: Result<Category, ApiError>)
    ensures found.None? ==> r == Failure(NotFound("Category not found"))
    ensures found.Some? && req.newParentId == Some(found.value.id) ==>
      r == Failure(BadRequest("category cannot be moved to itself"))
    ensures (found.Some? && req.newParentId != Some(found.value.id)
      && req.newParentId.Some? && req.newParentId.value !in existing) ==>
      r == Failure(BadRequest("New parent category not found"))
    ensures r.Success? <==>
      found.Some? && req.newParentId != Some(found.value.id)
      && (req.newParentId.Some? ==> req.newParentId.value in existing)
    ensures r.Success? ==> r.value == found.value.(parentId := req.newParentId)
  {
    if found.None? {
      return Failure(NotFound("Category not found"));
    }
    var category := found.value;
    var check := ValidateMoveCategoryRequest(req, category.id);
    if check.Fail? {
      return Failure(BadRequest(check.error));
    }
    if req.newParentId.Some? && req.newParentId.value !in existing {
      return Failure(BadRequest("New parent category not found"));
    }
    category := category.(parentId := req.newParentId);
    r := Success(category);
  }

  /**
   * Moving a category under its own child. The move checks only that the new parent is not
   * the category itself, so the handler accepts it: afterwards the category's parent is the
   * child while the child's stored parent is still the category, a two-step cycle.
   */
  method MoveUnderChildMakesCycle(c: Category, child: Category, existing: set<nat>) returns (moved: Category)
    requires child.id != c.id && child.parentId == Some(c.id) && child.id in existing
    ensures ValidateMoveCategoryRequest(MoveCategoryRequest(Some(child.id)), c.id).Pass?
    ensures moved == c.(parentId := Some(child.id))
    ensures moved.id == c.id && moved.parentId == Some(child.id) && child.parentId == Some(moved.id)
  {
    var r := MoveCategory(Some(c), MoveCategoryRequest(Some(child.id)), existing);
    moved := r.value;
  }
}
