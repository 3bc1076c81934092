/**
 * The product controller (app/controllers/product_controller.py): SKU format
 * validation with `re.match(r'^[A-Za-z0-9]{3,20}$', sku)`, and the mapping of
 * the service's outcome to an HTTP error or the domain result.
 *
 * The regular expression is modelled the way the matcher runs it: the
 * bounded repetition first takes as many ASCII letters and digits as it can
 * (at most 20), then gives them back one at a time until `$` matches. In
 * Python `$` matches at the end of the text and also just before a single
 * newline that ends the text.
 */
module ProductController {
  import opened Wrappers
  import opened Models

  const MinSkuLength := 3
  const MaxSkuLength := 20

  /** The class `[A-Za-z0-9]`: ASCII letters and digits only. */
  predicate IsAsciiAlnum(c: char) {
    ('A' <= c <= 'Z') || ('a' <= c <= 'z') || ('0' <= c <= '9')
  }

  /** The documented SKU format: 3 to 20 ASCII letters and digits. */
  predicate WellFormedSku(s: string) {
    MinSkuLength <= |s| <= MaxSkuLength && forall i :: 0 <= i < |s| ==> IsAsciiAlnum(s[i])
  }

  /** Length of the longest prefix of `s` made of class characters. */
  function AlnumRun(s: string): (n: nat)
    ensures n <= |s|
    ensures forall i :: 0 <= i < n ==> IsAsciiAlnum(s[i])
    ensures n < |s| ==> !IsAsciiAlnum(s[n])
  {
    if s == [] || !IsAsciiAlnum(s[0]) then 0 else 1 + AlnumRun(s[1..])
  }

  /** `$` after `k` characters: at the very end, or before a final newline. */
  predicate EndAnchorAt(s: string, k: nat) {
    k == |s| || (k + 1 == |s| && s[k] == '\n')
  }

  /** Backtracking of `{3,k}`: try `k` repetitions, then one fewer, down to 3. */
  function Backtrack(s: string, k: int): bool
    decreases k
  {
    if k < MinSkuLength then false
    else EndAnchorAt(s, k) || Backtrack(s, k - 1)
  }

  /** The backtracking succeeds exactly when some count from 3 to `k` lets `$` match. */
  lemma {:induction false} BacktrackFindsAnchor(s: string, k: int)
    ensures Backtrack(s, k) <==> exists j: nat :: MinSkuLength <= j <= k && EndAnchorAt(s, j)
  {
    if k >= MinSkuLength {
      BacktrackFindsAnchor(s, k - 1);
      if EndAnchorAt(s, k) {
        assert MinSkuLength <= k as nat <= k && EndAnchorAt(s, k as nat);
      }
    }
  }

  /**
   * `_validate_sku`: the pattern accepts a well-formed SKU, and also a
   * well-formed SKU followed by one newline, and nothing else.
   */
  function ValidateSku(sku: string): (valid: bool)
    ensures valid <==> WellFormedSku(sku) || (|sku| > 0 && sku[|sku| - 1] == '\n' && WellFormedSku(sku[..|sku| - 1]))
  {
    var run := AlnumRun(sku);
    var greedy := if run < MaxSkuLength then run else MaxSkuLength;
    BacktrackFindsAnchor(sku, greedy);
    var valid := Backtrack(sku, greedy);
    assert valid <==> WellFormedSku(sku) || (|sku| > 0 && sku[|sku| - 1] == '\n' && WellFormedSku(sku[..|sku| - 1])) by {
      if valid {
        var j: nat :| MinSkuLength <= j <= greedy && EndAnchorAt(sku, j);
        if j < |sku| {
          assert sku[..|sku| - 1] == sku[..j];
        }
      }
      if WellFormedSku(sku) {
        assert AlnumRun(sku) == |sku|;
        assert EndAnchorAt(sku, |sku|);
      } else if |sku| > 0 && sku[|sku| - 1] == '\n' && WellFormedSku(sku[..|sku| - 1]) {
        var n := |sku| - 1;
        assert forall i :: 0 <= i < n ==> sku[i] == sku[..n][i];
        assert AlnumRun(sku) == n;
        assert EndAnchorAt(sku, n);
      }
    }
    valid
  }

  /** Any character outside `[A-Za-z0-9]`, other than one final newline, is refused. */
  lemma RejectsForeignCharacter(sku: string, i: nat)
    requires i < |sku| && !IsAsciiAlnum(sku[i])
    requires !(i == |sku| - 1 && sku[i] == '\n')
    ensures !ValidateSku(sku)
  {
    if |sku| > 0 && sku[|sku| - 1] == '\n' {
      assert sku[..|sku| - 1][i] == sku[i];
    }
  }

  /** Refused whatever the characters: shorter than 3, or longer than 21. */
  lemma RejectsLength(sku: string)
    requires |sku| < MinSkuLength || |sku| > MaxSkuLength + 1
    ensures !ValidateSku(sku)
  {
  }

  /** A plain SKU is accepted, and so is the same SKU followed by one newline. */
  lemma AcceptsTrailingNewline()
    ensures ValidateSku("SKU001") && ValidateSku("SKU001\n")
    ensures !ValidateSku("SKU001\n\n")
  {
    assert WellFormedSku("SKU001");
    assert "SKU001\n"[..6] == "SKU001";
    RejectsForeignCharacter("SKU001\n\n", 6);
  }

  /** `-`, `_`, space and a non-ASCII letter are outside the class. */
  lemma RejectsPunctuation()
    ensures !ValidateSku("SKU-001") && !ValidateSku("SKU_001") && !ValidateSku("SKU 001")
    ensures !ValidateSku("SK\U{DC}001")
  {
    RejectsForeignCharacter("SKU-001", 3);
    RejectsForeignCharacter("SKU_001", 3);
    RejectsForeignCharacter("SKU 001", 3);
    RejectsForeignCharacter("SK\U{DC}001", 2);
  }

  /** What `await self.service.get_product(sku)` did: raised, or returned a product or `None`. */
  datatype ServiceOutcome = ServiceRaised(error: string) | ServiceReturned(product: Option<NormalizedProduct>)

  /** An `HTTPException`'s status code and the fields of its `detail` dict. */
  datatype ControllerResult =
    | Returned(product: Option<NormalizedProduct>)
    | HttpError(status: int, error: string, detail: string, received: Option<string>)

  const InvalidSkuError := "Invalid SKU format"
  const InvalidSkuDetail := "SKU must be alphanumeric and 3-20 characters long"
  const InternalError := "Internal server error"

  /**
   * `get_product`: an invalid SKU is refused with 400 echoing the SKU, before
   * the service is consulted (its outcome plays no part); an exception from
   * the service becomes 500 with its text; otherwise the service's result is
   * passed on unchanged, `None` included.
   */
  function GetProduct(sku: string, service: ServiceOutcome): (r: ControllerResult)
    ensures r.HttpError? ==> r.status == 400 || r.status == 500
    ensures (r.HttpError? && r.status == 400) <==> !ValidateSku(sku)
    ensures r.HttpError? && r.status == 400 ==> r == HttpError(400, InvalidSkuError, InvalidSkuDetail, Some(sku))
    ensures (r.HttpError? && r.status == 500) <==> ValidateSku(sku) && service.ServiceRaised?
    ensures r.HttpError? && r.status == 500 ==> r.error == InternalError && r.detail == service.error && r.received.None?
    ensures r.Returned? <==> ValidateSku(sku) && service.ServiceReturned?
    ensures r.Returned? ==> r.product == service.product
  {
    if !ValidateSku(sku) then HttpError(400, InvalidSkuError, InvalidSkuDetail, Some(sku))
    else
      match service
      case ServiceRaised(e) => HttpError(500, InternalError, e, None)
      case ServiceReturned(p) => Returned(p)
  }

  /** The 400 is raised outside the `try`: no service outcome turns it into a 500. */
  lemma InvalidSkuIgnoresService(sku: string, s1: ServiceOutcome, s2: ServiceOutcome)
    requires !ValidateSku(sku)
    ensures GetProduct(sku, s1) == GetProduct(sku, s2)
    ensures GetProduct(sku, s1).HttpError? && GetProduct(sku, s1).status == 400
  {
  }
}
