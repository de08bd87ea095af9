/**
 * The colour of a hospital's map marker, chosen from how many ambulances
 * the hospital has available (`getHospitalIconcolor`).
 */
module HospitalIcon {

  datatype Color = Green | Orange | Red

  /** The marker colour for a count of available ambulances. */
  function IconColor(ambulancesAvailable: int): (c: Color)
    ensures c == Green <==> 4 <= ambulancesAvailable
    ensures c == Orange <==> 2 <= ambulancesAvailable < 4
    ensures c == Red <==> ambulancesAvailable < 2
  {
    if ambulancesAvailable >= 4 then Green
    else if ambulancesAvailable >= 2 then Orange
    else Red
  }

  /** More ambulances never move the marker from green toward red. */
  lemma IconColorMonotone(fewer: int, more: int)
    requires fewer <= more
    ensures IconColor(fewer) == Green ==> IconColor(more) == Green
    ensures IconColor(fewer) == Orange ==> IconColor(more) != Red
    ensures IconColor(more) == Red ==> IconColor(fewer) == Red
  {
  }

  /** Every colour is reached by some count, so the rule really has three outcomes. */
  lemma IconColorSurjective(c: Color)
    ensures exists n :: IconColor(n) == c
  {
    match c
    case Green => assert IconColor(4) == Green;
    case Orange => assert IconColor(2) == Orange;
    case Red => assert IconColor(0) == Red;
  }
}
