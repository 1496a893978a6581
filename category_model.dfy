/**
 * The catalog category: a tree node that knows its parent's id and, when storage has preloaded
 * them, its parent record and its children. The model covers the record's own checks, its
 * position in the tree (depth, root, full path) and the validators of the three requests.
 */
module Categories {
  import opened Wrappers
  import opened Text

  /**
   * A category. `parentId` is the stored link; `parent` and `children` are the records
   * storage preloads, and are empty when it did not.
   */
  datatype Category = Category(
    id: nat,
    name: string,
    description: string,
    parentId: Option<nat>,
    parent: Option<Category>,
    children: seq<Category>,
    isActive: bool,
    sortOrder: int)

  /** The number of parent links above `c`, following the preloaded parent records. */
  function Depth(c: Category): (d: nat)
    ensures d + 1 == |PathNames(c)|
    decreases c
  {
    if c.parent.None? then 0 else 1 + Depth(c.parent.value)
  }

  /** `GetDepth`: walk up the parent chain, counting the steps. */
  method GetDepth(c: Category) returns (depth: nat)
    ensures depth == Depth(c)
  {
    depth := 0;
    var current := c;
    while current.parent.Some?
      invariant depth + Depth(current) == Depth(c)
      decreases current
    {
      depth := depth + 1;
      current := current.parent.value;
    }
  }

  /** `IsRoot` tests the stored link, not the preloaded record. */
  function IsRoot(c: Category): (root: bool)
    ensures ParentChainLoaded(c) ==> (root <==> Depth(c) == 0)
  {
    c.parentId.None?
  }

  /** `HasChildren`: some child record is loaded. */
  function HasChildren(c: Category): (has: bool)
    ensures has <==> exists child :: child in c.children
  {
    if |c.children| > 0 then assert c.children[0] in c.children; true else false
  }

  /** `GetFullPath`: the ancestors' names from the root down, joined by " > ". */
  function FullPath(c: Category): (path: string)
    ensures |c.name| <= |path| && path[|path| - |c.name|..] == c.name
    decreases c
  {
    if c.parent.None? then c.name
    else
      var path := FullPath(c.parent.value) + (" > " + c.name);
      assert path == FullPath(c.parent.value) + " > " + c.name;
      path
  }

  /** The topmost preloaded ancestor. */
  function Root(c: Category): Category
    decreases c
  {
    if c.parent.None? then c else Root(c.parent.value)
  }

  /** The names on the path from the root down to `c`. */
  function PathNames(c: Category): (names: seq<string>)
    ensures |names| >= 1 && names[|names| - 1] == c.name
    decreases c
  {
    if c.parent.None? then [c.name] else PathNames(c.parent.value) + [c.name]
  }

  /** `names` joined with the separator " > ". */
  function JoinPath(names: seq<string>): string
    requires |names| >= 1
    decreases |names|
  {
    if |names| == 1 then names[0] else JoinPath(names[..|names| - 1]) + " > " + names[|names| - 1]
  }

  /**
   * The full path is the join of the path's names, and there is one name per level: the
   * depth plus one.
   */
  lemma {:induction false} FullPathIsJoinedNames(c: Category)
    ensures FullPath(c) == JoinPath(PathNames(c))
    ensures |PathNames(c)| == Depth(c) + 1
    decreases c
  {
    if c.parent.Some? {
      var p := c.parent.value;
      FullPathIsJoinedNames(p);
      var names := PathNames(c);
      assert names[..|names| - 1] == PathNames(p);
    }
  }

  /** The full path starts with the root's name and ends with the category's own name. */
  lemma {:induction false} FullPathEnds(c: Category)
    ensures |Root(c).name| <= |FullPath(c)| && FullPath(c)[..|Root(c).name|] == Root(c).name
    ensures |c.name| <= |FullPath(c)| && FullPath(c)[|FullPath(c)| - |c.name|..] == c.name
    decreases c
  {
    if c.parent.Some? {
      var p := c.parent.value;
      FullPathEnds(p);
      var head := FullPath(p);
      assert FullPath(c) == head + (" > " + c.name);
      assert FullPath(c)[..|Root(c).name|] == head[..|Root(c).name|];
    }
  }

  /** The full path is the bare name exactly when no parent is loaded. */
  lemma FullPathIsNameIffNoParent(c: Category)
    ensures FullPath(c) == c.name <==> c.parent.None?
  {
    if c.parent.Some? {
      assert |FullPath(c)| >= |" > " + c.name|;
    }
  }

  /** The parent records are loaded along the whole chain and agree with the stored links. */
  predicate ParentChainLoaded(c: Category)
    decreases c
  {
    match c.parent
    case None => c.parentId.None?
    case Some(p) => c.parentId == Some(p.id) && ParentChainLoaded(p)
  }

  /** With the chain loaded, `IsRoot` and a depth of 0 agree. */
  lemma RootIffDepthZero(c: Category)
    requires ParentChainLoaded(c)
    ensures IsRoot(c) <==> Depth(c) == 0
  {
  }

  /** Without the parent preloaded they disagree: a category with a parent link reports depth 0. */
  lemma DepthIgnoresUnloadedParent(c: Category)
    requires c.parentId.Some? && c.parent.None?
    ensures !IsRoot(c) && Depth(c) == 0 && FullPath(c) == c.name
  {
  }

  /** `Category.Validate`: the four checks, in the order the source makes them. */
  function ValidateCategory(c: Category): (r: Outcome<string>)
    ensures r.Pass? <==>
      !IsBlank(c.name) && ByteLen(c.name) <= 100 && ByteLen(c.description) <= 500
      && c.parentId != Some(c.id)
  {
    if IsBlank(c.name) then Fail("category name is required")
    else if ByteLen(c.name) > 100 then Fail("category name cannot exceed 100 characters")
    else if ByteLen(c.description) > 500 then Fail("category description cannot exceed 500 characters")
    else if c.parentId == Some(c.id) then Fail("category cannot be its own parent")
    else Pass
  }

  /**
   * The name checks come first: a whitespace-only name is reported as missing even when it
   * is too long or the category is its own parent, and a self-link is only reported once
   * name and description are acceptable.
   */
  lemma ValidateCategoryOrder(c: Category)
    ensures IsBlank(c.name) ==> ValidateCategory(c) == Fail("category name is required")
    ensures c.parentId == Some(c.id) ==> ValidateCategory(c).Fail?
    ensures ValidateCategory(c) == Fail("category cannot be its own parent") ==>
      !IsBlank(c.name) && ByteLen(c.name) <= 100 && ByteLen(c.description) <= 500
  {
  }

  datatype CreateCategoryRequest = CreateCategoryRequest(
    name: string,
    description: string,
    parentId: Option<nat>,
    isActive: Option<bool>,
    sortOrder: Option<int>)

  datatype UpdateCategoryRequest = UpdateCategoryRequest(
    name: string,
    description: string,
    parentId: Option<nat>,
    isActive: Option<bool>,
    sortOrder: Option<int>)

  datatype MoveCategoryRequest = MoveCategoryRequest(newParentId: Option<nat>)

  /** The `required` tag on the create request's name. */
  predicate CreateCategoryRequestBinds(r: CreateCategoryRequest) { r.name != "" }

  /** `CreateCategoryRequest.Validate`: the name and description checks, without a self-parent check. */
  function ValidateCreateCategoryRequest(r: CreateCategoryRequest): (o: Outcome<string>)
    ensures o.Pass? <==> !IsBlank(r.name) && ByteLen(r.name) <= 100 && ByteLen(r.description) <= 500
  {
    if IsBlank(r.name) then Fail("category name is required")
    else if ByteLen(r.name) > 100 then Fail("category name cannot exceed 100 characters")
    else if ByteLen(r.description) > 500 then Fail("category description cannot exceed 500 characters")
    else Pass
  }

  /** `UpdateCategoryRequest.Validate`: the name may be absent; only lengths are checked. */
  function ValidateUpdateCategoryRequest(r: UpdateCategoryRequest): (o: Outcome<string>)
    ensures o.Pass? <==> (r.name == "" || ByteLen(r.name) <= 100) && ByteLen(r.description) <= 500
  {
    if r.name != "" && ByteLen(r.name) > 100 then Fail("category name cannot exceed 100 characters")
    else if ByteLen(r.description) > 500 then Fail("category description cannot exceed 500 characters")
    else Pass
  }

  /** `MoveCategoryRequest.Validate(id)`: the only refusal is a move under itself. */
  function ValidateMoveCategoryRequest(r: MoveCategoryRequest, categoryId: nat): (o: Outcome<string>)
    ensures o.Pass? <==> r.newParentId != Some(categoryId)
    ensures o.Fail? ==> o.error == "category cannot be moved to itself"
  {
    if r.newParentId.Some? && r.newParentId.value == categoryId then Fail("category cannot be moved to itself")
    else Pass
  }

  /** A whitespace-only name passes binding and is then refused by the create validator. */
  lemma BlankNameBindsButFailsValidation()
    ensures var r := CreateCategoryRequest("   ", "", None, None, None);
      CreateCategoryRequestBinds(r) && ValidateCreateCategoryRequest(r) == Fail("category name is required")
  {
    var r := CreateCategoryRequest("   ", "", None, None, None);
    assert IsSpace(r.name[0]) && IsSpace(r.name[1]) && IsSpace(r.name[2]);
  }

  /** The update validator lets a whitespace-only name through, which the record validator refuses. */
  lemma UpdateValidatorAcceptsBlankName(c: Category)
    ensures var r := UpdateCategoryRequest(" ", "", None, None, None);
      ValidateUpdateCategoryRequest(r).Pass? && ValidateCategory(c.(name := " ")).Fail?
  {
    var r := UpdateCategoryRequest(" ", "", None, None, None);
    assert IsSpace(" "[0]);
    assert IsAscii(" ");
    AsciiByteLen(" ");
  }
}
