/** Selection from a list, in the list's own order. */
module Lists {
  function Filter<T(!new)>(rows: seq<T>, p: T -> bool): (r: seq<T>)
    ensures forall x :: x in r <==> x in rows && p(x)
  {
    if rows == [] then []
    else if p(rows[0]) then [rows[0]] + Filter(rows[1..], p)
    else Filter(rows[1..], p)
  }
}
