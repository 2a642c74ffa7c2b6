/**
 * The web client's board table and `getSpaceName` (apps/web/utils/boardSpaces.ts).
 * JavaScript's `%` truncates toward zero, so a negative index gives a negative
 * (or negative-zero) remainder; the lookup then misses the array except at -0,
 * which names the same property as 0.
 */
module BoardSpaces {
  import opened Base
  import BoardConfig

  datatype Space = Space(index: int, name: string, kind: string, price: Option<int>, color: Option<string>)

  const Spaces: seq<Space> := [
    Space(0, "Salida", "corner", None, None),
    Space(1, "Avenida Mediterráneo", "property", Some(60), Some("#8B4513")),
    Space(2, "Arca Comunal", "chest", None, None),
    Space(3, "Avenida Báltica", "property", Some(60), Some("#8B4513")),
    Space(4, "Impuesto sobre Ingresos", "tax", Some(200), None),
    Space(5, "Ferrocarril Reading", "transport", Some(200), Some("#000000")),
    Space(6, "Avenida Oriental", "property", Some(100), Some("#87CEEB")),
    Space(7, "Fortuna", "chance", None, None),
    Space(8, "Avenida Vermont", "property", Some(100), Some("#87CEEB")),
    Space(9, "Avenida Connecticut", "property", Some(120), Some("#87CEEB")),
    Space(10, "En la Cárcel / De Visita", "corner", None, None),
    Space(11, "Plaza San Carlos", "property", Some(140), Some("#FF69B4")),
    Space(12, "Compañía de Electricidad", "utility", Some(150), Some("#F0F0F0")),
    Space(13, "Avenida Estados", "property", Some(140), Some("#FF69B4")),
    Space(14, "Avenida Virginia", "property", Some(160), Some("#FF69B4")),
    Space(15, "Ferrocarril Pennsylvania", "transport", Some(200), Some("#000000")),
    Space(16, "Plaza St. James", "property", Some(180), Some("#FFA500")),
    Space(17, "Arca Comunal", "chest", None, None),
    Space(18, "Avenida Tennessee", "property", Some(180), Some("#FFA500")),
    Space(19, "Avenida Nueva York", "property", Some(200), Some("#FFA500")),
    Space(20, "Parada Libre", "corner", None, None),
    Space(21, "Avenida Kentucky", "property", Some(220), Some("#FF0000")),
    Space(22, "Fortuna", "chance", None, None),
    Space(23, "Avenida Indiana", "property", Some(220), Some("#FF0000")),
    Space(24, "Avenida Illinois", "property", Some(240), Some("#FF0000")),
    Space(25, "Ferrocarril B. & O.", "transport", Some(200), Some("#000000")),
    Space(26, "Avenida Atlántico", "property", Some(260), Some("#FFFF00")),
    Space(27, "Avenida Ventnor", "property", Some(260), Some("#FFFF00")),
    Space(28, "Compañía de Agua", "utility", Some(150), Some("#F0F0F0")),
    Space(29, "Jardines Marvin", "property", Some(280), Some("#FFFF00")),
    Space(30, "Váyase a la Cárcel", "corner", None, None),
    Space(31, "Avenida Pacífico", "property", Some(300), Some("#008000")),
    Space(32, "Avenida Carolina del Norte", "property", Some(300), Some("#008000")),
    Space(33, "Arca Comunal", "chest", None, None),
    Space(34, "Avenida Pennsylvania", "property", Some(320), Some("#008000")),
    Space(35, "Ferrocarril Vía Rápida", "transport", Some(200), Some("#000000")),
    Space(36, "Fortuna", "chance", None, None),
    Space(37, "Plaza Park", "property", Some(350), Some("#00008B")),
    Space(38, "Impuesto de Lujo", "tax", Some(100), None),
    Space(39, "El Muelle", "property", Some(400), Some("#00008B"))
  ]

  /** JavaScript's `a % 40`: the remainder takes the sign of the dividend. */
  function JsRem40(a: int): (r: int)
    ensures -40 < r < 40
    ensures a >= 0 ==> r == a % 40
    ensures a < 0 ==> r <= 0 && (r == 0 <==> a % 40 == 0)
  {
    if a >= 0 then a % 40 else -((-a) % 40)
  }

  function IntToString(i: int): string {
    if i < 0 then "-" + NatToString(-i) else NatToString(i)
  }

  /**
   * `BOARD_SPACES[index % 40]?.name || \`Square ${index}\``. A remainder of
   * zero, negative zero included, is the key "0"; a negative remainder misses.
   * Every name in the table is non-empty, so `||` falls back only on a miss.
   */
  function GetSpaceName(index: int): string {
    var r := JsRem40(index);
    if 0 <= r < |Spaces| then Spaces[r].name else "Square " + IntToString(index)
  }

  /** Entry k of the table describes space k. */
  lemma TableIndexed(k: int)
    requires 0 <= k < 40
    ensures |Spaces| == 40 && Spaces[k].index == k
  {
  }

  /** On the board, the name is the table's. */
  lemma NameOnBoard(i: int)
    requires 0 <= i < 40
    ensures GetSpaceName(i) == Spaces[i].name
  {
    assert JsRem40(i) == i;
  }

  /** For non-negative indices the lookup repeats every lap. */
  lemma NamePeriodic(i: int)
    requires i >= 0
    ensures GetSpaceName(i + 40) == GetSpaceName(i)
  {
    assert JsRem40(i + 40) == JsRem40(i);
  }

  /** A negative index that is not a whole number of laps back falls through to "Square <index>". */
  lemma NegativeFallsBack(i: int)
    requires i < 0 && i % 40 != 0
    ensures GetSpaceName(i) == "Square -" + NatToString(-i)
  {
  }

  /** A whole number of laps back is negative zero, which names the starting square. */
  lemma NegativeWholeLaps(k: nat)
    requires k >= 1
    ensures GetSpaceName(-40 * k) == "Salida"
  {
    assert (40 * k) % 40 == 0;
  }

  /** The web table names every square exactly as the server table does. */
  lemma NamesAgreeWithServer(k: int)
    requires 0 <= k < 40
    ensures Spaces[k].name == BoardConfig.BoardSpaces[k].name
  {
  }
}
