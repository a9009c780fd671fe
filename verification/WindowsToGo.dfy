/** `plan_windows_to_go_target` of gui/rufusarm64_logic.py, on parsed integers. */
module WindowsToGo {
  import opened Base

  const MIB := 1024 * 1024
  const GIB := 1024 * 1024 * 1024
  const MINIMUM_TARGET := 29 * GIB
  const ESP := 260 * MIB
  const TAIL := MIB
  const MINIMUM_FREE := 2 * GIB
  const ALIGNMENT := MIB

  datatype Plan = Plan(espStart: int, espSize: int, osStart: int, osSize: int)

  function AlignUp(value: int, alignment: int): int
    requires alignment > 0
  {
    (value + alignment - 1) / alignment * alignment
  }

  function AlignDown(value: int, alignment: int): int
    requires alignment > 0
  {
    value / alignment * alignment
  }

  /** None stands for the source's ValueErrors. */
  function PlanTarget(size: int, sector: int, image: int): Option<Plan> {
    if sector != 512 && sector != 4096 then None
    else if size < MINIMUM_TARGET then None
    else if size % sector != 0 then None
    else
      var start := AlignUp(ALIGNMENT, sector);
      var esp := AlignUp(ESP, sector);
      var osStart := AlignUp(start + esp, ALIGNMENT);
      var usableEnd := AlignDown(size - TAIL, sector);
      if usableEnd <= osStart || usableEnd - osStart < image + MINIMUM_FREE then None
      else Some(Plan(start, esp, osStart, usableEnd - osStart))
  }

  lemma Layout(sector: int)
    requires sector == 512 || sector == 4096
    ensures AlignUp(ALIGNMENT, sector) == MIB && AlignUp(ESP, sector) == ESP
    ensures AlignUp(MIB + ESP, ALIGNMENT) == MIB + ESP
    ensures MIB % sector == 0 && ESP % sector == 0
  {
  }

  lemma WholeSectors(size: int, sector: int)
    requires (sector == 512 || sector == 4096) && size % sector == 0
    ensures AlignDown(size - TAIL, sector) == size - TAIL
    ensures (size - TAIL - (MIB + ESP)) % sector == 0
  {
  }

  /** A target is accepted exactly when it is a whole number of 512- or 4096-byte
      sectors and holds the larger of 29 GiB and the image with 2 GiB of headroom
      and 262 MiB of layout; the plan then fills it up to the tail reserve. */
  lemma AcceptedIff(size: int, sector: int, image: int)
    requires image > 0
    ensures PlanTarget(size, sector, image).Some? <==>
      (sector == 512 || sector == 4096) && size % sector == 0 && size >= MINIMUM_TARGET
          && size >= image + MINIMUM_FREE + 262 * MIB
    ensures PlanTarget(size, sector, image).Some? ==>
      var p := PlanTarget(size, sector, image).value;
      && p.espStart == ALIGNMENT && p.espStart + p.espSize == p.osStart && p.osStart % ALIGNMENT == 0
      && p.osStart + p.osSize + TAIL == size && p.osSize >= image + MINIMUM_FREE
      && p.espStart % sector == 0 && p.espSize % sector == 0 && p.osSize % sector == 0
  {
    if (sector == 512 || sector == 4096) && size % sector == 0 {
      Layout(sector);
      WholeSectors(size, sector);
    }
  }
}
