/**
 * The default parameter tables of the concept-design models and the lookup
 * by model number: 0 is the double-skid landing gear, 1 the multi-leg gear,
 * 2 the linkage gear.
 *
 * A table is a map, so the order of its keys carries nothing; the entries the
 * lemmas below read are written last.
 */
module InitialParams {
  import opened Js

  /** `MODEL_0_PARAMS`: the double-skid gear, with at most `MAX_BEAMNUM` cross beams. */
  const Model0Params: map<string, Value> := map[
    "absolute_tolerance" := Num(0.001),
    "angle_tolerance_degrees" := Num(1.0),
    "local_blending" := Bool(true),
    "fit_rail" := Bool(true),
    "is_smooth" := Num(0.0),
    "smooth_point_count" := Num(200.0),
    "smooth_degree" := Num(4.0),
    "skid_length" := Num(300.0),
    "skid_arc_radius_1" := Num(140.0),
    "skid_arc_angleRadians_1" := Num(20.0),
    "skid_arc_radius_2" := Num(80.0),
    "skid_arc_angleRadians_2" := Num(50.0),
    "is_skid_pipe" := Num(1.0),
    "skid_pipe_radius" := Num(4.0),
    "is_skid_shell" := Num(0.0),
    "skid_pipe_thickness" := Num(2.0),
    "is_skid_connected" := Num(0.0),
    "skid_bridge_radius_AtStart" := Num(4.0),
    "skid_bridge_height_AtStart" := Num(30.0),
    "skid_bridge_ext_angle_AtStart" := Num(50.0),
    "connect_reverse" := Num(1.0),
    "skid_bridge_radius_AtEnd" := Num(4.0),
    "skid_bridge_height_AtEnd" := Num(30.0),
    "skid_bridge_ext_angle_AtEnd" := Num(50.0),
    "skid_width" := Num(20.0),
    "skid_thickness" := Num(10.0),
    "skid_distance" := Num(160.0),
    "beam_length" := Num(40.0),
    "beam_height" := Num(80.0),
    "beam_radius" := Num(4.0),
    "beam_start_X" := Num(-100.0),
    "beam_end_X" := Num(100.0),
    "is_beam_pipe" := Num(1.0),
    "beam_pipe_radius" := Num(4.0),
    "is_beam_shell" := Num(0.0),
    "beam_pipe_thickness" := Num(2.0),
    "plat_length" := Num(100.0),
    "plat_width" := Num(80.0),
    "plat_thickness" := Num(10.0),
    "is_plat_corner" := Num(1.0),
    "plat_radius" := Num(20.0),
    "MAX_ANGLERADIANS" := Num(90.0),
    "cap_mode" := Str("Round"),
    "MAX_BEAMNUM" := Num(5.0),
    "beam_number" := Num(4.0)
  ]

  /** `MODEL_1_PARAMS`: the multi-leg gear, with at most `MAX_LEGNUM` legs. */
  const Model1Params: map<string, Value> := map[
    "absolute_tolerance" := Num(0.001),
    "angle_tolerance_degrees" := Num(1.0),
    "local_blending" := Bool(true),
    "fit_rail" := Bool(true),
    "is_smooth" := Num(0.0),
    "smooth_point_count" := Num(200.0),
    "smooth_degree" := Num(4.0),
    "global_offset" := Num(0.05),
    "is_curve_else_rod" := Num(1.0),
    "leg_angle" := Num(90.0),
    "leg_radius" := Num(4.0),
    "curve_radius" := Num(180.0),
    "leg_height" := Num(80.0),
    "foot_thickness" := Num(20.0),
    "foot_radius" := Num(6.0),
    "leg_distance_to_center" := Num(20.0),
    "leg_rotate" := Num(0.0),
    "plat_length" := Num(100.0),
    "plat_width" := Num(80.0),
    "plat_thickness" := Num(10.0),
    "is_plat_corner" := Num(2.0),
    "plat_radius" := Num(20.0),
    "MAX_ANGLERADIANS" := Num(90.0),
    "cap_mode" := Str("Flat"),
    "MAX_LEGNUM" := Num(5.0),
    "leg_number" := Num(3.0)
  ]

  /** `MODEL_2_PARAMS`: the linkage gear, with at most `MAX_LEGNUM` legs. */
  const Model2Params: map<string, Value> := map[
    "absolute_tolerance" := Num(0.001),
    "angle_tolerance_degrees" := Num(1.0),
    "local_blending" := Bool(true),
    "fit_rail" := Bool(true),
    "is_smooth" := Num(0.0),
    "smooth_point_count" := Num(200.0),
    "smooth_degree" := Num(4.0),
    "global_offset" := Num(0.05),
    "is_hinge" := Num(1.0),
    "hinge_start_height" := Num(40.0),
    "hinge_radius" := Num(1.0),
    "hinge_leg_distance_AtPlat" := Num(40.0),
    "leg_rotate_offset" := Num(0.0),
    "leg_distance_to_center" := Num(30.0),
    "is_leg_pipe" := Num(0.0),
    "leg_radius" := Num(2.0),
    "leg_height" := Num(80.0),
    "leg_side_length" := Num(2.0),
    "leg_angle" := Num(40.0),
    "foot_thickness" := Num(20.0),
    "foot_radius" := Num(6.0),
    "plat_length" := Num(100.0),
    "plat_width" := Num(80.0),
    "plat_thickness" := Num(10.0),
    "is_plat_corner" := Num(1.0),
    "plat_radius" := Num(20.0),
    "MAX_ANGLERADIANS" := Num(90.0),
    "cap_mode" := Str("Flat"),
    "MAX_LEGNUM" := Num(4.0),
    "leg_number" := Num(4.0)
  ]

  /**
   * `getDefaultParams(modelid)`: a `switch` compares with `===`, so only the
   * numbers 0, 1 and 2 select their own table; every other value, the string
   * "2" included, falls to the multi-leg table.
   */
  function DefaultParams(modelid: Value): (r: map<string, Value>)
    ensures r == Model0Params || r == Model1Params || r == Model2Params
  {
    match modelid
    case Num(n) =>
      if n == 0.0 then Model0Params
      else if n == 1.0 then Model1Params
      else if n == 2.0 then Model2Params
      else Model1Params
    case _ => Model1Params
  }

  /** Each model number selects its own table, anything else the multi-leg table, and the three differ. */
  lemma DefaultParamsSelects(modelid: Value)
    ensures DefaultParams(modelid) == Model0Params <==> modelid == Num(0.0)
    ensures DefaultParams(modelid) == Model2Params <==> modelid == Num(2.0)
    ensures DefaultParams(modelid) == Model1Params <==> modelid != Num(0.0) && modelid != Num(2.0)
  {
    assert Model0Params["cap_mode"] != Model1Params["cap_mode"];
    assert Model0Params["cap_mode"] != Model2Params["cap_mode"];
    assert Model2Params["leg_number"] != Model1Params["leg_number"];
  }

  /** A count entry, a positive whole number, and the maximum it must not exceed. */
  predicate WithinMax(t: map<string, Value>, count: string, max: string)
  {
    && count in t && max in t && t[count].Num? && t[max].Num?
    && 0.0 < t[count].n <= t[max].n && t[count].n.Floor as real == t[count].n
  }

  /** Every default table respects its own count limit, and every count is a whole number. */
  lemma CountsWithinMaxima()
    ensures WithinMax(Model0Params, "beam_number", "MAX_BEAMNUM")
    ensures WithinMax(Model1Params, "leg_number", "MAX_LEGNUM")
    ensures WithinMax(Model2Params, "leg_number", "MAX_LEGNUM")
    ensures forall modelid ::
      var t := DefaultParams(modelid);
      WithinMax(t, "beam_number", "MAX_BEAMNUM") || WithinMax(t, "leg_number", "MAX_LEGNUM")
  {
  }

  /** Every default table is non-empty, so injecting it always replaces an empty `params`. */
  lemma DefaultParamsNonEmpty(modelid: Value)
    ensures |DefaultParams(modelid)| > 0
    ensures "MAX_ANGLERADIANS" in DefaultParams(modelid) && DefaultParams(modelid)["MAX_ANGLERADIANS"] == Num(90.0)
  {
    assert "MAX_ANGLERADIANS" in DefaultParams(modelid);
  }
}
