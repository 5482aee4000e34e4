/** The plotter's fixed five-colour palette (`colors`) and its rank table (`colorMap`). */
module Palette {

  datatype Color = Blue | Red | Green | Orange | Black

  /** `colors`, in palette order. */
  const Colors: seq<Color> := [Blue, Red, Green, Orange, Black]

  /** `colorMap`: a colour's position in the palette, used to order chart series. */
  function Rank(c: Color): (r: nat)
    ensures r < |Colors| && Colors[r] == c
  {
    match c
    case Blue => 0
    case Red => 1
    case Green => 2
    case Orange => 3
    case Black => 4
  }

  /** `colors[i % len(colors)]`: the colour of slot `i`, cycling through the palette. */
  function ColorAt(i: nat): (c: Color)
    ensures Rank(c) == i % |Colors|
  {
    Colors[i % |Colors|]
  }

  /** Two slots get the same colour exactly when they are a multiple of five apart. */
  lemma ColorAtSameIff(i: nat, j: nat)
    ensures ColorAt(i) == ColorAt(j) <==> i % 5 == j % 5
  {
  }
}
