/**
 * The photo grid and avatar initials shared by the two profile screens
 * (`app/home.tsx` and `app/main/profile.tsx`): photos are laid out in rows of
 * three in their order, an empty list shows a fixed 5 by 3 grid of
 * placeholders, and a user without avatar shows the first two letters of the
 * alias in capitals.
 */
module PhotoGrid {
  import opened Common

  const RowLength := 3
  const SkeletonRows := 5

  /** What the grid shows: the placeholder grid, or the photos cut into rows. */
  datatype Grid<T> = Skeleton(height: nat, width: nat) | PhotoRows(rows: seq<seq<T>>)

  /** The rows put back end to end. */
  function Concat<T>(rows: seq<seq<T>>): seq<T>
    decreases |rows|
  {
    if rows == [] then [] else Concat(rows[..|rows| - 1]) + rows[|rows| - 1]
  }

  lemma ConcatPush<T>(rows: seq<seq<T>>, row: seq<T>)
    ensures Concat(rows + [row]) == Concat(rows) + row
  {
    assert (rows + [row])[..|rows|] == rows;
  }

  /** The rows are full rows of three, except the last, which holds one to three. */
  predicate Shaped<T>(rows: seq<seq<T>>) {
    (forall j :: 0 <= j < |rows| ==> 1 <= |rows[j]| <= RowLength)
    && (forall j :: 0 <= j < |rows| - 1 ==> |rows[j]| == RowLength)
  }

  /**
   * The row loop of `renderPhotosGrid`: each image goes into the current row,
   * which is pushed as soon as it holds three when another image comes, and
   * the last row is pushed when it is not empty. The rows give back the
   * images in order, and there are ceil(n / 3) of them.
   */
  method ChunkRows<T>(images: seq<T>) returns (rows: seq<seq<T>>)
    ensures Concat(rows) == images
    ensures Shaped(rows)
    ensures |rows| == (|images| + RowLength - 1) / RowLength
  {
    rows := [];
    var currentRow: seq<T> := [];
    var i := 0;
    while i < |images|
      invariant 0 <= i <= |images|
      invariant Concat(rows) + currentRow == images[..i]
      invariant forall j :: 0 <= j < |rows| ==> |rows[j]| == RowLength
      invariant |Concat(rows)| == RowLength * |rows|
      invariant |currentRow| <= RowLength
      invariant i > 0 <==> currentRow != []
    {
      if |currentRow| >= RowLength {
        ConcatPush(rows, currentRow);
        rows := rows + [currentRow];
        currentRow := [];
      }
      currentRow := currentRow + [images[i]];
      assert images[..i + 1] == images[..i] + [images[i]];
      i := i + 1;
    }
    if |currentRow| > 0 {
      ConcatPush(rows, currentRow);
      rows := rows + [currentRow];
    }
    assert images[..|images|] == images;
  }

  /** `renderPhotosGrid`: no photo gives the 5 by 3 placeholders, otherwise the rows of photos. */
  method RenderPhotosGrid<T>(images: seq<T>) returns (grid: Grid<T>)
    ensures images == [] <==> grid == Skeleton(SkeletonRows, RowLength)
    ensures images != [] ==> grid.PhotoRows? && Concat(grid.rows) == images && Shaped(grid.rows)
                             && |grid.rows| == (|images| + RowLength - 1) / RowLength
  {
    if |images| == 0 {
      return Skeleton(SkeletonRows, RowLength);
    }
    var rows := ChunkRows(images);
    grid := PhotoRows(rows);
  }

  /** Photos fill exactly a number of full rows when their count is a multiple of three. */
  lemma {:induction false} FullRowsOnly<T>(rows: seq<seq<T>>, images: seq<T>)
    requires Concat(rows) == images && Shaped(rows) && rows != []
    ensures |images| % RowLength == 0 <==> |rows[|rows| - 1]| == RowLength
  {
    var k := |rows| - 1;
    var c := |rows[k]|;
    forall j | 0 <= j < |rows[..k]| ensures |rows[..k][j]| == RowLength {
      assert rows[..k][j] == rows[j];
    }
    ShapedLength(rows[..k]);
    assert rows[..k] + [rows[k]] == rows;
    ConcatPush(rows[..k], rows[k]);
    assert |images| == RowLength * k + c;
    LastRowRemainder(k, c);
  }

  lemma LastRowRemainder(k: nat, c: nat)
    requires 1 <= c <= RowLength
    ensures (RowLength * k + c) % RowLength == 0 <==> c == RowLength
  {
    if c == RowLength {
      assert RowLength * k + c == RowLength * (k + 1);
    }
  }

  /** The images held by rows of three. */
  lemma {:induction false} ShapedLength<T>(rows: seq<seq<T>>)
    requires forall j :: 0 <= j < |rows| ==> |rows[j]| == RowLength
    ensures |Concat(rows)| == RowLength * |rows|
    decreases |rows|
  {
    if rows != [] {
      ShapedLength(rows[..|rows| - 1]);
    }
  }

  /**
   * `alias.substring(0, 2).toUpperCase()`: the characters held whole by the
   * first two UTF-16 code units, upper-cased. Without characters outside the
   * Basic Multilingual Plane these are the first two characters.
   */
  function GetInitials(alias: string): (r: string)
    ensures |r| <= |alias| && JsLength(r) <= 2
    ensures forall i :: 0 <= i < |r| ==> r[i] == UpperChar(alias[i])
    ensures alias != "" ==> r != ""
    ensures |r| < |alias| ==> 2 < JsLength(alias[..|r|]) + Units(alias[|r|])
    ensures (forall i :: 0 <= i < |alias| ==> !Astral(alias[i])) ==> |r| == if |alias| < 2 then |alias| else 2
  {
    var p := UnitPrefix(alias, 2);
    assert p == alias[..|p|];
    JsLengthCountsAstral(alias);
    JsLengthCountsAstral(p);
    UpperAscii(p)
  }

  /**
   * `getInitials(user?.alias || "U")`: a user without a usable alias shows
   * "U"; an alias that is not text throws (None).
   */
  function AvatarInitials(alias: Option<Json>): (r: Option<string>)
    ensures !Present(alias) ==> r == Some("U")
    ensures Present(alias) && alias.value.Str? ==> r == Some(GetInitials(alias.value.s))
    ensures Present(alias) && !alias.value.Str? ==> r.None?
  {
    assert GetInitials("U") == "U";
    match Or(alias, Str("U"))
    case Str(s) => Some(GetInitials(s))
    case _ => None
  }

  /** Initials are already capitals: taking them again changes nothing. */
  lemma {:induction false} InitialsIdempotent(alias: string)
    ensures GetInitials(GetInitials(alias)) == GetInitials(alias)
  {
    var r := GetInitials(alias);
    var rr := GetInitials(r);
    forall i | 0 <= i < |rr| ensures rr[i] == r[i] {
      assert rr[i] == UpperChar(r[i]);
    }
  }
}
